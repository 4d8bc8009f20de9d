/** Whole runs of mints and exchanges: whose record a nonce stands for, in what order the
    operations took effect, and what each was answered. */
module DeferredRuns {
  import opened Common
  import opened Stores
  import opened Deferred
  import opened DeferredProtocol

  // ---------------------------------------------------------------- where everything came from

  /** Operation p of the run that began in s0 drew this nonce. */
  predicate Drew(t: State, p: nat, nonce: Nonce) {
    nonce in t.issued && t.issued[nonce] == p
  }

  ghost predicate DrewNothing(t: State, p: nat) {
    forall n :: n in t.issued ==> t.issued[n] != p
  }

  /** An operation is still the one it began as: a mint files its own request under the nonce it
      drew, an exchange redeems the nonce it was given. */
  ghost predicate OriginOk(s0: State, t: State, p: nat)
    requires p < |s0.procs| == |t.procs|
  {
    match t.procs[p]
    case Minting(_) => s0.procs[p] == t.procs[p] && DrewNothing(t, p)
    case Putting(nonce, record) =>
      && Drew(t, p, nonce) && s0.procs[p] == Minting(RequestOf(record))
      && record.digest == Digest(nonce) && !record.consumed
    case Minted(handoff) => Drew(t, p, handoff.token)
    case Exchanging(_) => s0.procs[p] == t.procs[p]
    case Consuming(nonce, _) => s0.procs[p] == Exchanging(nonce)
    case Marking(nonce, _, _) => s0.procs[p] == Exchanging(nonce)
    case Calling(nonce, _, _) => s0.procs[p] == Exchanging(nonce)
    case Redeemed(_, _) => s0.procs[p].Exchanging?
    case Refused(_) => true
  }

  /** Nonces are drawn by mints, one each. */
  ghost predicate IssuedOk(s0: State, t: State) {
    && (forall n :: n in t.issued ==> t.issued[n] < |s0.procs| && s0.procs[t.issued[n]].Minting?)
    && (forall m, n :: m in t.issued && n in t.issued && t.issued[m] == t.issued[n] ==> m == n)
  }

  /** A stored record is the one its nonce's mint asked for; a redemption is of its exchange's own nonce. */
  ghost predicate EventFrom(s0: State, t: State, e: Event) {
    && (e.Stored? ==>
      && !e.record.consumed && e.record.digest.of in t.issued
      && t.issued[e.record.digest.of] < |s0.procs|
      && s0.procs[t.issued[e.record.digest.of]] == Minting(RequestOf(e.record)))
    && (e.Redemption? ==> e.proc < |s0.procs| && s0.procs[e.proc] == Exchanging(e.nonce))
  }

  ghost predicate Origins(s0: State, t: State) {
    && |t.procs| == |s0.procs|
    && (forall p :: 0 <= p < |t.procs| ==> OriginOk(s0, t, p))
    && IssuedOk(s0, t)
    && (forall e :: e in t.log ==> EventFrom(s0, t, e))
  }

  lemma Draws(cfg: Config, s: State, l: Label)
    requires Next(cfg, s, l).Some?
    ensures var t := Next(cfg, s, l).value;
      || t.issued == s.issued
      || (&& l.Act? && s.procs[l.proc].Minting? && t.procs[l.proc].Putting?
          && t.procs[l.proc].nonce !in s.issued && t.issued == s.issued[t.procs[l.proc].nonce := l.proc])
  {
  }

  lemma MintKeepsOrigin(cfg: Config, s0: State, s: State, p: nat, a: Action)
    requires |s.procs| == |s0.procs| && p < |s.procs| && OriginOk(s0, s, p) && Step(cfg, s, p, a).Some?
    requires s.procs[p].Minting? || s.procs[p].Putting?
    ensures |Step(cfg, s, p, a).value.procs| == |s.procs| && OriginOk(s0, Step(cfg, s, p, a).value, p)
  {
  }

  lemma ExchangeKeepsOrigin(cfg: Config, s0: State, s: State, p: nat, a: Action)
    requires |s.procs| == |s0.procs| && p < |s.procs| && OriginOk(s0, s, p) && Step(cfg, s, p, a).Some?
    requires !(s.procs[p].Minting? || s.procs[p].Putting?)
    ensures |Step(cfg, s, p, a).value.procs| == |s.procs| && OriginOk(s0, Step(cfg, s, p, a).value, p)
  {
  }

  /** An operation that does not move, in a state with more nonces drawn by another. */
  lemma BystanderKeepsOrigin(s0: State, s: State, t: State, p: nat)
    requires p < |s0.procs| == |s.procs| == |t.procs| && OriginOk(s0, s, p) && t.procs[p] == s.procs[p]
    requires forall n :: n in s.issued ==> n in t.issued && t.issued[n] == s.issued[n]
    requires forall n :: n in t.issued && n !in s.issued ==> t.issued[n] != p
    ensures OriginOk(s0, t, p)
  {
  }

  lemma NextKeepsIssued(cfg: Config, s0: State, s: State, l: Label)
    requires Origins(s0, s) && Next(cfg, s, l).Some?
    ensures IssuedOk(s0, Next(cfg, s, l).value)
    ensures var t := Next(cfg, s, l).value; forall n :: n in s.issued ==> n in t.issued && t.issued[n] == s.issued[n]
    ensures var t := Next(cfg, s, l).value;
      forall n :: n in t.issued && n !in s.issued ==> l.Act? && t.issued[n] == l.proc
  {
    Draws(cfg, s, l);
    if l.Act? {
      assert OriginOk(s0, s, l.proc);
    }
  }

  lemma EventsKeepOrigin(s0: State, s: State, t: State, e: Event)
    requires EventFrom(s0, s, e)
    requires forall n :: n in s.issued ==> n in t.issued && t.issued[n] == s.issued[n]
    ensures EventFrom(s0, t, e)
  {
  }

  lemma NewEventFrom(cfg: Config, s0: State, s: State, l: Label, e: Event)
    requires Origins(s0, s) && Next(cfg, s, l).Some? && e in Next(cfg, s, l).value.log
    ensures EventFrom(s0, Next(cfg, s, l).value, e)
  {
    NextKeepsIssued(cfg, s0, s, l);
    Traces(cfg, s, l);
    if e in s.log {
      EventsKeepOrigin(s0, s, Next(cfg, s, l).value, e);
    } else {
      assert Added(s, Next(cfg, s, l).value) == Some(e);
      if l.Act? {
        assert OriginOk(s0, s, l.proc);
      }
    }
  }

  lemma NextKeepsOrigins(cfg: Config, s0: State, s: State, l: Label)
    requires Origins(s0, s) && Next(cfg, s, l).Some?
    ensures Origins(s0, Next(cfg, s, l).value)
  {
    var t := Next(cfg, s, l).value;
    NextMovesOne(cfg, s, l);
    NextKeepsIssued(cfg, s0, s, l);
    forall p | 0 <= p < |t.procs| ensures OriginOk(s0, t, p) {
      if l.Act? && l.proc == p {
        if s.procs[p].Minting? || s.procs[p].Putting? {
          MintKeepsOrigin(cfg, s0, s, p, l.action);
        } else {
          ExchangeKeepsOrigin(cfg, s0, s, p, l.action);
        }
      } else {
        BystanderKeepsOrigin(s0, s, t, p);
      }
    }
    forall e | e in t.log ensures EventFrom(s0, t, e) {
      NewEventFrom(cfg, s0, s, l, e);
    }
  }

  lemma {:induction false} RunKeepsOrigins(cfg: Config, s: State, run: seq<Label>)
    requires Initial(s) && Exec(cfg, s, run).Some?
    ensures Origins(s, Exec(cfg, s, run).value)
  {
    if run != [] {
      RunKeepsOrigins(cfg, s, run[..|run| - 1]);
      NextKeepsOrigins(cfg, s, Exec(cfg, s, run[..|run| - 1]).value, run[|run| - 1]);
    }
  }

  lemma {:induction false} DrawsStay(cfg: Config, s: State, past: seq<Label>, future: seq<Label>)
    requires Initial(s) && Exec(cfg, s, past + future).Some?
    ensures Exec(cfg, s, past).Some?
    ensures var before, after := Exec(cfg, s, past).value, Exec(cfg, s, past + future).value;
      forall n :: n in before.issued ==> n in after.issued && after.issued[n] == before.issued[n]
  {
    if future == [] {
      assert past + future == past;
    } else {
      var shorter := past + future[..|future| - 1];
      assert (past + future)[..|past + future| - 1] == shorter;
      DrawsStay(cfg, s, past, future[..|future| - 1]);
      RunKeepsOrigins(cfg, s, shorter);
      NextKeepsIssued(cfg, s, Exec(cfg, s, shorter).value, (past + future)[|past + future| - 1]);
    }
  }

  // ---------------------------------------------------------------- linearizability

  /** The event by which operation p took effect. */
  predicate By(t: State, e: Event, p: nat) {
    match e
    case Stored(record) => Drew(t, p, record.digest.of)
    case Redemption(proc, _, _, _) => proc == p
    case _ => false
  }

  predicate Answered(pc: Pc) {
    pc.Minted? || pc.Redeemed?
  }

  predicate NotBegun(pc: Pc) {
    pc.Minting? || pc.Exchanging?
  }

  /** The event at position i is mint p's: it stores the fresh record of its request, which the
      handoff it was answered opens. */
  predicate MintedAt(s0: State, t: State, i: nat, p: nat, handoff: Handoff) {
    && i < |t.log| && p < |s0.procs| && t.log[i].Stored? && By(t, t.log[i], p)
    && Opens(t.log[i].record, handoff) && s0.procs[p] == Minting(RequestOf(t.log[i].record))
  }

  /** The event at position i is exchange p's, with the verdict a sequential run gives it. */
  predicate RedeemedAt(s0: State, t: State, i: nat, p: nat, verdict: Verdict) {
    && Linearized(t.log, i, p, verdict) && p < |s0.procs| && s0.procs[p] == Exchanging(t.log[i].nonce)
  }

  /** Operation p has its effect in the log, and was answered accordingly. */
  ghost predicate TookEffect(s0: State, t: State, p: nat)
    requires p < |t.procs|
  {
    match t.procs[p]
    case Minted(handoff) => exists i: nat :: MintedAt(s0, t, i, p, handoff)
    case Redeemed(verdict, answer) =>
      && (exists i: nat :: RedeemedAt(s0, t, i, p, verdict))
      && (!verdict.Accepted? ==> answer == Err(ProblemOf(verdict)))
    case _ => true
  }

  lemma MintTookEffect(cfg: Config, s: State, run: seq<Label>, p: nat) returns (i: nat)
    requires cfg.atomic && Initial(s) && Exec(cfg, s, run).Some?
    requires var t := Exec(cfg, s, run).value; p < |t.procs| && t.procs[p].Minted?
    ensures var t := Exec(cfg, s, run).value; MintedAt(s, t, i, p, t.procs[p].handoff)
  {
    RunKeepsInv(cfg, s, run);
    RunKeepsOrigins(cfg, s, run);
    var t := Exec(cfg, s, run).value;
    assert ProcOk(t, p) && OriginOk(s, t, p);
    var r :| Stored(r) in t.log && Opens(r, t.procs[p].handoff);
    i :| 0 <= i < |t.log| && t.log[i] == Stored(r);
    assert EventFrom(s, t, t.log[i]);
  }

  lemma ExchangeTookEffect(cfg: Config, s: State, run: seq<Label>, p: nat) returns (i: nat)
    requires cfg.atomic && Initial(s) && Exec(cfg, s, run).Some?
    requires var t := Exec(cfg, s, run).value; p < |t.procs| && t.procs[p].Redeemed?
    ensures var t := Exec(cfg, s, run).value; RedeemedAt(s, t, i, p, t.procs[p].verdict)
    ensures var pc := Exec(cfg, s, run).value.procs[p];
      !pc.verdict.Accepted? ==> pc.answer == Err(ProblemOf(pc.verdict))
  {
    RunKeepsInv(cfg, s, run);
    RunKeepsOrigins(cfg, s, run);
    var t := Exec(cfg, s, run).value;
    assert ProcOk(t, p);
    var nonce, now :| Redemption(p, nonce, now, t.procs[p].verdict) in t.log;
    i :| 0 <= i < |t.log| && t.log[i] == Redemption(p, nonce, now, t.procs[p].verdict);
    assert EventFrom(s, t, t.log[i]);
  }

  /** Every mint and exchange that was answered took effect at one event of the log: a mint by
      storing the fresh record of its own request, which its handoff opens; an exchange by
      redeeming its own nonce, with the verdict it gets when the events are carried out one by
      one in log order, each with its own clock reading. And those events leave exactly the
      stored records. */
  lemma OperationsLinearize(cfg: Config, s: State, run: seq<Label>)
    requires cfg.atomic && Initial(s) && Exec(cfg, s, run).Some?
    ensures var t := Exec(cfg, s, run).value;
      && RecordsOf(t.store) == Play(t.log)
      && forall p :: 0 <= p < |t.procs| ==> TookEffect(s, t, p)
  {
    RunKeepsInv(cfg, s, run);
    var t := Exec(cfg, s, run).value;
    forall p | 0 <= p < |t.procs| ensures TookEffect(s, t, p) {
      if t.procs[p].Minted? {
        var i := MintTookEffect(cfg, s, run, p);
      } else if t.procs[p].Redeemed? {
        var i := ExchangeTookEffect(cfg, s, run, p);
      }
    }
  }

  /** An operation takes effect once. */
  lemma EffectsAreUnique(cfg: Config, s: State, run: seq<Label>, p: nat, i: nat, j: nat)
    requires cfg.atomic && Initial(s) && Exec(cfg, s, run).Some?
    requires var t := Exec(cfg, s, run).value;
      i < |t.log| && j < |t.log| && By(t, t.log[i], p) && By(t, t.log[j], p)
    ensures i == j
  {
    RunKeepsInv(cfg, s, run);
    RunKeepsOrigins(cfg, s, run);
    var t := Exec(cfg, s, run).value;
    assert EventFrom(s, t, t.log[i]) && EventFrom(s, t, t.log[j]);
    assert IssuedOk(s, t);
  }

  /** An operation that was answered has its event in the log. */
  lemma AnsweredHasEvent(cfg: Config, s: State, run: seq<Label>, p: nat) returns (i: nat)
    requires cfg.atomic && Initial(s) && Exec(cfg, s, run).Some?
    requires var t := Exec(cfg, s, run).value; p < |t.procs| && Answered(t.procs[p])
    ensures var t := Exec(cfg, s, run).value; i < |t.log| && By(t, t.log[i], p)
  {
    if Exec(cfg, s, run).value.procs[p].Minted? {
      i := MintTookEffect(cfg, s, run, p);
    } else {
      i := ExchangeTookEffect(cfg, s, run, p);
    }
  }

  /** One that has not begun has none. */
  lemma NotBegunHasNone(cfg: Config, s: State, run: seq<Label>, q: nat, j: nat)
    requires cfg.atomic && Initial(s) && Exec(cfg, s, run).Some?
    requires var t := Exec(cfg, s, run).value; q < |t.procs| && NotBegun(t.procs[q]) && j < |t.log|
    ensures !By(Exec(cfg, s, run).value, Exec(cfg, s, run).value.log[j], q)
  {
    RunKeepsInv(cfg, s, run);
    RunKeepsOrigins(cfg, s, run);
    var t := Exec(cfg, s, run).value;
    assert OriginOk(s, t, q) && EventFrom(s, t, t.log[j]);
  }

  /** An event keeps its operation for the rest of the run. */
  lemma ByStays(cfg: Config, s: State, past: seq<Label>, future: seq<Label>, e: Event, p: nat)
    requires Initial(s) && Exec(cfg, s, past + future).Some?
    ensures Exec(cfg, s, past).Some?
    ensures e in Exec(cfg, s, past).value.log ==>
      (By(Exec(cfg, s, past).value, e, p) <==> By(Exec(cfg, s, past + future).value, e, p))
  {
    DrawsStay(cfg, s, past, future);
    RunKeepsOrigins(cfg, s, past);
    assert e in Exec(cfg, s, past).value.log ==> EventFrom(s, Exec(cfg, s, past).value, e);
  }

  /** The order is the one callers saw: a mint or exchange that had its answer before another one
      began comes before it in the log. */
  lemma OrderIsRealTime(cfg: Config, s: State, past: seq<Label>, future: seq<Label>, p: nat, q: nat, i: nat, j: nat)
    requires cfg.atomic && Initial(s) && Exec(cfg, s, past + future).Some? && Exec(cfg, s, past).Some?
    requires var before := Exec(cfg, s, past).value;
      p < |before.procs| && q < |before.procs| && Answered(before.procs[p]) && NotBegun(before.procs[q])
    requires var after := Exec(cfg, s, past + future).value;
      i < |after.log| && j < |after.log| && By(after, after.log[i], p) && By(after, after.log[j], q)
    ensures i < |Exec(cfg, s, past).value.log| <= j
  {
    LogOnlyGrows(cfg, s, past, future);
    var before, after := Exec(cfg, s, past).value, Exec(cfg, s, past + future).value;
    var k := AnsweredHasEvent(cfg, s, past, p);
    assert after.log[k] == before.log[k];
    ByStays(cfg, s, past, future, before.log[k], p);
    EffectsAreUnique(cfg, s, past + future, p, i, k);
    if j < |before.log| {
      assert after.log[j] == before.log[j];
      ByStays(cfg, s, past, future, before.log[j], q);
      NotBegunHasNone(cfg, s, past, q, j);
    }
  }

  // ---------------------------------------------------------------- a login for whom it was minted

  /** Operation m minted the nonce for this request; if it was answered, then with this expiry. */
  ghost predicate MintedFor(s0: State, t: State, m: nat, nonce: Nonce, request: OneTimeRequest, now: Instant) {
    && m < |s0.procs| == |t.procs|
    && s0.procs[m] == Minting(request) && Drew(t, m, nonce)
    && (t.procs[m].Minted? ==> t.procs[m].handoff.token == nonce && now < t.procs[m].handoff.expiresAt)
    && (forall p :: 0 <= p < |t.procs| && t.procs[p].Minted? && t.procs[p].handoff.token == nonce ==> p == m)
  }

  /** Every provider call carries the subject and email of the one mint that drew its nonce, and
      was made on a clock reading before the expiry that mint handed out. */
  lemma CallsCarryTheMint(cfg: Config, s: State, run: seq<Label>, c: Asked) returns (m: nat)
    requires cfg.atomic && Initial(s) && Exec(cfg, s, run).Some? && c in Exec(cfg, s, run).value.calls
    ensures MintedFor(s, Exec(cfg, s, run).value, m, c.nonce, c.request, c.now)
  {
    RunKeepsInv(cfg, s, run);
    RunKeepsOrigins(cfg, s, run);
    var t := Exec(cfg, s, run).value;
    var e := Redemption(c.proc, c.nonce, c.now, Accepted(c.request));
    assert e in t.log && Backed(t.log, e);
    var r :| Stored(r) in t.log && r.digest == Digest(c.nonce) && RequestOf(r) == c.request && c.now < r.expiresAt;
    assert EventFrom(s, t, Stored(r));
    m := t.issued[c.nonce];
    forall p | 0 <= p < |t.procs| && t.procs[p].Minted? && (p == m || t.procs[p].handoff.token == c.nonce)
      ensures p == m && t.procs[p].handoff.token == c.nonce && c.now < t.procs[p].handoff.expiresAt
    {
      assert OriginOk(s, t, p) && ProcOk(t, p) && IssuedOk(s, t);
      var q :| Stored(q) in t.log && Opens(q, t.procs[p].handoff);
      StoredOnce(t.log, r, q);
    }
  }

  /** One record is ever stored for a nonce. */
  lemma StoredOnce(log: seq<Event>, r: HandoffRecord, q: HandoffRecord)
    requires forall i, j :: 0 <= i < j < |log| && log[i].Stored? && log[j].Stored? ==>
      log[i].record.digest != log[j].record.digest
    requires Stored(r) in log && Stored(q) in log && r.digest == q.digest
    ensures r == q
  {
    var i :| 0 <= i < |log| && log[i] == Stored(r);
    var j :| 0 <= j < |log| && log[j] == Stored(q);
    assert i == j;
  }

  /** The event consumes or evicts the nonce's record. */
  predicate Spends(e: Event, nonce: Nonce) {
    match e
    case Stored(_) => false
    case Redemption(_, n, _, _) => n == nonce
    case Lost(n) => n == nonce
    case Evicted(d) => d == Digest(nonce)
  }

  lemma FreshStays(records: Records, e: Event, nonce: Nonce)
    requires !Spends(e, nonce) && !(e.Stored? && e.record.digest == Digest(nonce))
    ensures LifeOf(Played(records, e), nonce) == LifeOf(records, nonce)
  {
  }

  /** From the event at k, which stored the handoff's record, up to j: still fresh. */
  lemma {:induction false} FreshFrom(log: seq<Event>, k: nat, j: nat, handoff: Handoff)
    requires k < j <= |log| && log[k].Stored? && Opens(log[k].record, handoff)
    requires forall a, b :: 0 <= a < b < |log| && log[a].Stored? && log[b].Stored? ==>
      log[a].record.digest != log[b].record.digest
    requires forall i :: k < i < j ==> !Spends(log[i], handoff.token)
    ensures LifeOf(Play(log[..j]), handoff.token) == Fresh(RequestOf(log[k].record), handoff.expiresAt)
  {
    var e := log[j - 1];
    assert log[..j] == log[..j - 1] + [e];
    PlayOneMore(log[..j - 1], e);
    if j > k + 1 {
      FreshFrom(log, k, j - 1, handoff);
      FreshStays(Play(log[..j - 1]), e, handoff.token);
    }
  }

  /** An exchange begun after the mint of its nonce was answered, with the nonce neither consumed
      nor evicted since, goes to the provider for the minted subject and email exactly when its
      clock reading is before the expiry that was handed out, and is answered expired otherwise. */
  lemma FirstExchangeIsAccepted(
    cfg: Config, s: State, past: seq<Label>, future: seq<Label>, p: nat, q: nat, j: nat)
    requires cfg.atomic && Initial(s) && Exec(cfg, s, past).Some? && Exec(cfg, s, past + future).Some?
    requires var before := Exec(cfg, s, past).value;
      && p < |before.procs| && before.procs[p].Minted?
      && q < |before.procs| && before.procs[q] == Exchanging(before.procs[p].handoff.token)
    requires var log := Exec(cfg, s, past + future).value.log;
      && j < |log| && log[j].Redemption? && log[j].proc == q
      && forall i :: 0 <= i < j ==> !Spends(log[i], Exec(cfg, s, past).value.procs[p].handoff.token)
    ensures |s.procs| == |Exec(cfg, s, past).value.procs| && s.procs[p].Minting?
    ensures var handoff, e := Exec(cfg, s, past).value.procs[p].handoff, Exec(cfg, s, past + future).value.log[j];
      e.verdict == if e.now < handoff.expiresAt then Accepted(s.procs[p].request) else Expired
    ensures q < |Exec(cfg, s, past + future).value.procs|
    ensures var t := Exec(cfg, s, past + future).value;
      var handoff, now, pc := Exec(cfg, s, past).value.procs[p].handoff, t.log[j].now, t.procs[q];
      && (now < handoff.expiresAt ==>
            || pc == Calling(handoff.token, now, s.procs[p].request)
            || (pc.Redeemed? && exists c :: c in t.calls && c == Asked(q, handoff.token, now, s.procs[p].request)))
      && (handoff.expiresAt <= now ==> pc.Redeemed? && pc.answer == Err(DeferredTokenExpired))
  {
    LogOnlyGrows(cfg, s, past, future);
    var before, after := Exec(cfg, s, past).value, Exec(cfg, s, past + future).value;
    var handoff := before.procs[p].handoff;
    var k := MintTookEffect(cfg, s, past, p);
    assert after.log[k] == before.log[k];
    ByStays(cfg, s, past, future, before.log[k], p);
    OrderIsRealTime(cfg, s, past, future, p, q, k, j);
    RunKeepsOrigins(cfg, s, past);
    RunKeepsOrigins(cfg, s, past + future);
    assert OriginOk(s, before, q) && EventFrom(s, after, after.log[j]);
    RunKeepsInv(cfg, s, past + future);
    FreshFrom(after.log, k, j, handoff);
    VerdictIsHeld(after, after.log[j]);
    if after.log[j].verdict.Accepted? {
      RunKeepsAsked(cfg, s, past + future);
      if after.procs[q].Redeemed? {
        AcceptedWasAsked(after, after.log[j]);
      }
    } else {
      RefusalIsAnswered(after, after.log[j]);
    }
  }

  /** Whoever was accepted and has an answer asked the provider for it. */
  ghost predicate AskedOk(t: State, p: nat)
    requires p < |t.procs|
  {
    t.procs[p].Redeemed? && t.procs[p].verdict.Accepted? ==> exists c :: c in t.calls && c.proc == p
  }

  lemma {:induction false} RunKeepsAsked(cfg: Config, s: State, run: seq<Label>)
    requires cfg.atomic && Initial(s) && Exec(cfg, s, run).Some?
    ensures var t := Exec(cfg, s, run).value; forall p :: 0 <= p < |t.procs| ==> AskedOk(t, p)
  {
    if run != [] {
      var past, l := run[..|run| - 1], run[|run| - 1];
      RunKeepsAsked(cfg, s, past);
      NextKeepsAsked(cfg, Exec(cfg, s, past).value, l);
    }
  }

  lemma NextKeepsAsked(cfg: Config, s: State, l: Label)
    requires cfg.atomic && Next(cfg, s, l).Some? && forall p :: 0 <= p < |s.procs| ==> AskedOk(s, p)
    ensures var t := Next(cfg, s, l).value; forall p :: 0 <= p < |t.procs| ==> AskedOk(t, p)
  {
    var t := Next(cfg, s, l).value;
    NextMovesOne(cfg, s, l);
    NextCalls(cfg, s, l);
    assert forall c :: c in s.calls ==> c in t.calls;
    forall p | 0 <= p < |t.procs| ensures AskedOk(t, p) {
      if l.Act? && l.proc == p {
        ActorKeepsAsked(cfg, s, p, l.action);
      } else {
        assert AskedOk(s, p);
      }
    }
  }

  lemma ActorKeepsAsked(cfg: Config, s: State, p: nat, a: Action)
    requires p < |s.procs| && AskedOk(s, p) && Step(cfg, s, p, a).Some?
    ensures |Step(cfg, s, p, a).value.procs| == |s.procs| && AskedOk(Step(cfg, s, p, a).value, p)
  {
    if s.procs[p].Calling? {
      var t := Step(cfg, s, p, a).value;
      assert t.calls[|s.calls|].proc == p;
      assert t.calls[|s.calls|] in t.calls;
    }
  }

  /** And asked it for what it was accepted for. */
  lemma AcceptedWasAsked(t: State, e: Event)
    requires VerdictsOk(t) && CallsOk(t) && e in t.log && e.Redemption? && e.verdict.Accepted?
    requires e.proc < |t.procs| && t.procs[e.proc].Redeemed? && t.procs[e.proc].verdict == e.verdict
    requires AskedOk(t, e.proc)
    ensures Asked(e.proc, e.nonce, e.now, e.verdict.request) in t.calls
  {
    var c :| c in t.calls && c.proc == e.proc;
    OneEventEach(t, e, Redemption(c.proc, c.nonce, c.now, Accepted(c.request)));
  }

  // ---------------------------------------------------------------- one operation alone is the minter's

  /** Takes one action of operation p. */
  lemma Go(cfg: Config, s: State, run: seq<Label>, now: State, p: nat, a: Action) returns (more: seq<Label>, next: State)
    requires Exec(cfg, s, run) == Some(now) && p < |now.procs| && Step(cfg, now, p, a).Some?
    ensures Exec(cfg, s, more) == Some(next) == Step(cfg, now, p, a)
  {
    more, next := run + [Act(p, a)], Step(cfg, now, p, a).value;
    assert more[..|run|] == run;
  }

  /** What an operation that is over was answered. */
  function Handed(pc: Pc): Option<Result<Handoff>> {
    match pc
    case Minted(handoff) => Some(Ok(handoff))
    case Refused(problem) => Some(Err(problem))
    case _ => None
  }

  function LoggedIn(pc: Pc): Option<Result<OneTimeToken>> {
    match pc
    case Redeemed(_, answer) => Some(answer)
    case Refused(problem) => Some(Err(problem))
    case _ => None
  }

  /** The clock as an operation reads it now. */
  function Reading(s: State, ok: bool): Result<Instant> {
    if ok then Ok(s.time) else Err(ProviderUnavailable)
  }

  lemma SoloDraw(cfg: Config, s: State, p: nat, clock: bool, nonce: Nonce) returns (run: seq<Label>, t: State)
    requires p < |s.procs| && s.procs[p].Minting? && nonce != "" && nonce !in s.issued
    ensures Exec(cfg, s, run) == Some(t) && |t.procs| == |s.procs| && t.calls == s.calls && t.store == s.store
    ensures var request := s.procs[p].request;
      t.procs[p] ==
        if request.subject == "" then Refused(TokenClaimMissing)
        else if !clock then Refused(ProviderUnavailable)
        else Putting(nonce,
          HandoffRecord(Digest(nonce), request.subject, request.email, s.time, s.time + cfg.lifetime, false))
  {
    run, t := Go(cfg, s, [], s, p, ReadClock(clock, nonce));
  }

  lemma SoloPut(cfg: Config, s: State, past: seq<Label>, now: State, p: nat, fault: Option<string>)
    returns (run: seq<Label>, t: State)
    requires Exec(cfg, s, past) == Some(now) && p < |now.procs| && now.procs[p].Putting?
    ensures Exec(cfg, s, run) == Some(t) && |t.procs| == |now.procs| && t.calls == now.calls
    ensures var Putting(nonce, record) := now.procs[p];
      && RecordsOf(t.store) == (if fault.None? then RecordsOf(now.store)[record.digest := record] else RecordsOf(now.store))
      && t.procs[p] == (if fault.None? then Minted(Handoff(nonce, record.expiresAt)) else Refused(ProviderUnavailable))
  {
    var record := now.procs[p].record;
    RecordsPut(now.store, record.digest, Entry(record, now.time + cfg.lifetime));
    run, t := Go(cfg, s, past, now, p, WriteStore(fault.None?, false));
  }

  /** A mint that nothing interleaves with answers and leaves behind what the minter's does. */
  lemma SoloMint(cfg: Config, s: State, p: nat, clock: bool, nonce: Nonce, fault: Option<string>)
    returns (run: seq<Label>, t: State)
    requires p < |s.procs| && s.procs[p].Minting? && nonce != "" && nonce !in s.issued
    ensures Exec(cfg, s, run) == Some(t) && |t.procs| == |s.procs| && t.calls == s.calls
    ensures var after := Mints(RecordsOf(s.store), s.procs[p].request, Reading(s, clock), nonce, fault, cfg.lifetime);
      RecordsOf(t.store) == after.records && Handed(t.procs[p]) == Some(after.answer)
  {
    run, t := SoloDraw(cfg, s, p, clock, nonce);
    if t.procs[p].Putting? {
      run, t := SoloPut(cfg, s, run, t, p, fault);
    }
  }

  /** From the clock reading of an exchange on. */
  lemma SoloConsume(
    cfg: Config, s: State, past: seq<Label>, now: State, p: nat, fault: Option<string>, provider: Result<OneTimeToken>)
    returns (run: seq<Label>, t: State)
    requires cfg.atomic && Exec(cfg, s, past) == Some(now) && p < |now.procs| && now.procs[p].Consuming?
    requires now.procs[p].nonce != ""
    ensures Exec(cfg, s, run) == Some(t) && |t.procs| == |now.procs|
    ensures var Consuming(nonce, at) := now.procs[p];
      var after := Exchanges(RecordsOf(now.store), nonce, Ok(at), fault, provider);
      && RecordsOf(t.store) == after.records && LoggedIn(t.procs[p]) == Some(after.answer)
      && t.calls == now.calls + (if after.asked.Some? then [Asked(p, nonce, at, after.asked.value)] else [])
  {
    var Consuming(nonce, at) := now.procs[p];
    RecordsFollow(now.store, Digest(nonce));
    VerdictFits(now.store, nonce, at);
    run, t := Go(cfg, s, past, now, p, WriteStore(fault.None?, false));
    if t.procs[p].Calling? {
      run, t := Go(cfg, s, run, t, p, CallProvider(provider));
    }
  }

  /** And so does an exchange. */
  lemma SoloExchange(cfg: Config, s: State, p: nat, clock: bool, fault: Option<string>, provider: Result<OneTimeToken>)
    returns (run: seq<Label>, t: State)
    requires cfg.atomic && p < |s.procs| && s.procs[p].Exchanging?
    ensures Exec(cfg, s, run) == Some(t) && |t.procs| == |s.procs|
    ensures var after := Exchanges(RecordsOf(s.store), s.procs[p].nonce, Reading(s, clock), fault, provider);
      && RecordsOf(t.store) == after.records && LoggedIn(t.procs[p]) == Some(after.answer)
      && t.calls == s.calls + (if after.asked.Some? then [Asked(p, s.procs[p].nonce, s.time, after.asked.value)] else [])
  {
    run, t := Go(cfg, s, [], s, p, ReadClock(clock, ""));
    if t.procs[p].Consuming? {
      run, t := SoloConsume(cfg, s, run, t, p, fault, provider);
    }
  }
}
