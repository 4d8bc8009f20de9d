/** Refresh-token rotation with reuse detection, one operation at a time. */
module Rotation {
  import opened Common
  import opened Tokens
  import opened Stores
  import opened Lineage

  datatype RefreshStore = RefreshStore(records: Records, errors: seq<Option<string>>)

  /** A blank token is refused rather than hashed. */
  function Fingerprint(token: RefreshToken): Result<Digest> {
    if token == "" then Err(RefreshTokenUnknown) else Ok(Digest(token))
  }

  function Written(st: RefreshStore, record: RefreshRecord): RefreshStore {
    RefreshStore(
      if NextFault(st.errors).Some? then st.records else st.records[record.fingerprint := record],
      RestFaults(st.errors))
  }

  function Expiry(session: Session, now: Instant, lifetime: Duration): Instant {
    match session.refreshExpiresAt
    case None => now + lifetime
    case Some(at) => at
  }

  /** What recording a session leaves behind, and the problem it may end in. */
  function AfterIssue(st: RefreshStore, session: Session, clock: Result<Instant>, lifetime: Duration)
    : (RefreshStore, Option<Problem>)
  {
    if clock.Err? then (st, Some(ProviderUnavailable))
    else if session.refreshToken == "" then (st, Some(RefreshTokenUnknown))
    else
      var now := clock.value;
      var record :=
        RefreshRecord(session.subject, Digest(session.refreshToken), now, Expiry(session, now, lifetime), false);
      (Written(st, record), if NextFault(st.errors).Some? then Some(ProviderUnavailable) else None)
  }

  /** What the seams answer during one rotation: the clock, the provider's refresh, and the
      clock again when the replacement is recorded. */
  datatype Seams = Seams(reading: Result<Instant>, refresh: Result<Session>, stamp: Result<Instant>)

  datatype Rotated = Rotated(st: RefreshStore, answer: Result<Session>, exchanged: bool)

  /** Whose session a rotation yields: a provider that names nobody leaves the record's subject. */
  function Backfilled(session: Session, record: RefreshRecord): Session {
    if session.subject == "" then session.(subject := record.subject) else session
  }

  /** What one rotation answers and leaves behind, and whether it reached the provider. */
  function AfterRotate(st: RefreshStore, token: RefreshToken, seams: Seams, lifetime: Duration): Rotated {
    if seams.reading.Err? then Rotated(st, Err(ProviderUnavailable), false)
    else if token == "" then Rotated(st, Err(RefreshTokenUnknown), false)
    else
      var now, d, st1 := seams.reading.value, Digest(token), st.(errors := RestFaults(st.errors));
      if NextFault(st.errors).Some? then Rotated(st1, Err(ProviderUnavailable), false)
      else if d !in st.records then Rotated(st1, Err(RefreshTokenUnknown), false)
      else
        var record := st.records[d];
        if record.consumed then Rotated(st1, Err(RefreshTokenReused), false)
        else if !(now < record.expiresAt) then Rotated(st1, Err(TokenExpired), false)
        else if seams.refresh.Err? then Rotated(st1, Err(seams.refresh.error), true)
        else
          var st2 := Written(st1, record.(consumed := true));
          if NextFault(st1.errors).Some? then Rotated(st2, Err(ProviderUnavailable), true)
          else
            var session := Backfilled(seams.refresh.value, record);
            var (st3, failure) := AfterIssue(st2, session, seams.stamp, lifetime);
            Rotated(st3, if failure.Some? then Err(failure.value) else Ok(session), true)
  }

  // ---------------------------------------------------------------- what a caller is answered

  /** The store's next outcome fails. */
  predicate Fails(errors: seq<Option<string>>) {
    errors != [] && errors[0].Some?
  }

  /** Before the record is judged: a clock that fails, a blank token, and a read that fails or finds
      nothing are refused in that order, and no record changes. */
  lemma UnreadRotations(st: RefreshStore, token: RefreshToken, seams: Seams, lifetime: Duration)
    ensures var rotated := AfterRotate(st, token, seams, lifetime);
      && (seams.reading.Err? ==> rotated == Rotated(st, Err(ProviderUnavailable), false))
      && (seams.reading.Ok? && token == "" ==> rotated == Rotated(st, Err(RefreshTokenUnknown), false))
      && (seams.reading.Ok? && token != "" ==>
            && (Fails(st.errors) ==> rotated.answer == Err(ProviderUnavailable))
            && (!Fails(st.errors) && Digest(token) !in st.records ==> rotated.answer == Err(RefreshTokenUnknown))
            && (Fails(st.errors) || Digest(token) !in st.records ==>
                  !rotated.exchanged && rotated.st.records == st.records))
  {
  }

  /** A consumed record is answered reused even when it has expired too; an unconsumed one is
      answered expired from its expiry on; and otherwise the provider is reached. */
  lemma JudgedRotations(st: RefreshStore, token: RefreshToken, seams: Seams, lifetime: Duration)
    requires seams.reading.Ok? && token != "" && !Fails(st.errors) && Digest(token) in st.records
    ensures var rotated, record := AfterRotate(st, token, seams, lifetime), st.records[Digest(token)];
      && (record.consumed ==> rotated.answer == Err(RefreshTokenReused))
      && (!record.consumed && record.expiresAt <= seams.reading.value ==> rotated.answer == Err(TokenExpired))
      && (rotated.exchanged <==> !record.consumed && seams.reading.value < record.expiresAt)
      && (!rotated.exchanged ==> rotated.st.records == st.records)
  {
  }

  /** Once the provider is reached its failure is handed on with no record changed; a failed mark is
      reported with no record changed; and after the mark, whatever fails, the presented record is
      consumed and nothing else of it changes. */
  lemma ReachedRotations(st: RefreshStore, token: RefreshToken, seams: Seams, lifetime: Duration)
    requires AfterRotate(st, token, seams, lifetime).exchanged
    ensures Digest(token) in st.records
    ensures var rotated, record := AfterRotate(st, token, seams, lifetime), st.records[Digest(token)];
      && (seams.refresh.Err? ==> rotated.answer == Err(seams.refresh.error) && rotated.st.records == st.records)
      && (seams.refresh.Ok? && |st.errors| > 1 && st.errors[1].Some? ==>
            rotated.answer == Err(ProviderUnavailable) && rotated.st.records == st.records)
      && (seams.refresh.Ok? && !(|st.errors| > 1 && st.errors[1].Some?) && rotated.answer.Err? ==>
            && rotated.st.records == st.records[record.fingerprint := RefreshRecord(
                 record.subject, record.fingerprint, record.issuedAt, record.expiresAt, true)]
            && rotated.answer.error ==
                 (if seams.stamp.Ok? && seams.refresh.value.refreshToken == "" then RefreshTokenUnknown
                  else ProviderUnavailable))
  {
  }

  /** The session a rotation yields is the provider's, with the record's subject where the provider
      names nobody; its token is recorded from the second clock reading on, until the expiry the
      provider gave or for the lifetime. */
  lemma YieldedSessions(st: RefreshStore, token: RefreshToken, seams: Seams, lifetime: Duration)
    requires AfterRotate(st, token, seams, lifetime).answer.Ok?
    ensures seams.refresh.Ok? && seams.stamp.Ok? && Digest(token) in st.records
    ensures var rotated, granted := AfterRotate(st, token, seams, lifetime), seams.refresh.value;
      var session := rotated.answer.value;
      && session.access == granted.access
      && session.refreshToken == granted.refreshToken != ""
      && session.refreshExpiresAt == granted.refreshExpiresAt
      && session.subject == (if granted.subject != "" then granted.subject else st.records[Digest(token)].subject)
      && Digest(session.refreshToken) in rotated.st.records
      && RecordedAt(rotated.st.records[Digest(session.refreshToken)], session, seams.stamp.value, lifetime)
  {
  }

  /** The live record of this session, filed at this instant. */
  predicate RecordedAt(record: RefreshRecord, session: Session, now: Instant, lifetime: Duration) {
    && record.subject == session.subject && record.fingerprint == Digest(session.refreshToken)
    && record.issuedAt == now && !record.consumed
    && (session.refreshExpiresAt.None? ==> record.expiresAt == now + lifetime)
    && (session.refreshExpiresAt.Some? ==> record.expiresAt == session.refreshExpiresAt.value)
  }

  /** Recording a session: refused for a clock that fails, then a blank token, then a failed write,
      with no record changed; otherwise exactly its own record is filed. */
  lemma IssuedSessions(st: RefreshStore, session: Session, clock: Result<Instant>, lifetime: Duration)
    ensures var (after, failure) := AfterIssue(st, session, clock, lifetime);
      && (clock.Err? ==> failure == Some(ProviderUnavailable))
      && (clock.Ok? && session.refreshToken == "" ==> failure == Some(RefreshTokenUnknown))
      && (clock.Ok? && session.refreshToken != "" && Fails(st.errors) ==> failure == Some(ProviderUnavailable))
      && (failure.Some? ==> after.records == st.records)
      && (clock.Ok? && session.refreshToken != "" && !Fails(st.errors) ==>
            var d := Digest(session.refreshToken);
            && failure == None && d in after.records
            && RecordedAt(after.records[d], session, clock.value, lifetime)
            && after.records - {d} == st.records - {d})
  {
  }

  /** For how long a session's record is stored: until it expires. */
  ghost function StoredFor(session: Session, clock: Result<Instant>, lifetime: Duration): seq<Duration> {
    if clock.Err? || session.refreshToken == "" then []
    else if session.refreshExpiresAt.Some? then [session.refreshExpiresAt.value - clock.value]
    else [lifetime]
  }

  /** The rotator in place over the in-memory store. */
  class Rotator {
    const store: MemoryRefreshStore
    const lifetime: Duration
    // The refresh tokens presented to the provider, oldest first.
    var refreshCalls: seq<RefreshToken>

    constructor (store: MemoryRefreshStore, lifetime: Duration)
      ensures this.store == store && refreshCalls == []
      ensures this.lifetime == lifetime
    {
      this.store, this.lifetime, refreshCalls := store, lifetime, [];
    }

    ghost function State(): RefreshStore
      reads store
    {
      RefreshStore(store.records, store.errors)
    }

    /** Records a session's refresh token so that a later rotation can recognise it. */
    method Issue(session: Session, clock: Result<Instant>) returns (failure: Option<Problem>)
      modifies store
      ensures (State(), failure) == AfterIssue(old(State()), session, clock, lifetime)
      ensures store.ttls == old(store.ttls) + StoredFor(session, clock, lifetime)
    {
      if clock.Err? {
        return Some(ProviderUnavailable);
      }
      var now := clock.value;
      var fingerprint := Fingerprint(session.refreshToken);
      if fingerprint.Err? {
        return Some(fingerprint.error);
      }
      var expiry := now + lifetime;
      if session.refreshExpiresAt.Some? {
        expiry := session.refreshExpiresAt.value;
      }
      var record := RefreshRecord(session.subject, fingerprint.value, now, expiry, false);
      var fault := store.Write(record, expiry - now);
      if fault.Some? {
        return Some(ProviderUnavailable);
      }
      return None;
    }

    /** Exchanges the token for a new session, marking it consumed and recording the replacement. */
    method Rotate(token: RefreshToken, seams: Seams) returns (answer: Result<Session>)
      modifies this`refreshCalls, store
      ensures var rotated := AfterRotate(old(State()), token, seams, lifetime);
        && State() == rotated.st && answer == rotated.answer
        && refreshCalls == old(refreshCalls) + (if rotated.exchanged then [token] else [])
        && (!rotated.exchanged || seams.refresh.Err? ==> store.ttls == old(store.ttls))
        && (rotated.exchanged && seams.refresh.Ok? ==>
              && |store.ttls| > |old(store.ttls)| && old(store.ttls) <= store.ttls
              && store.ttls[|old(store.ttls)|] == old(store.records)[Digest(token)].expiresAt - seams.reading.value)
        && (rotated.answer.Ok? ==>
              store.ttls[|old(store.ttls)| + 1..] == StoredFor(seams.refresh.value, seams.stamp, lifetime))
    {
      if seams.reading.Err? {
        return Err(ProviderUnavailable);
      }
      var now := seams.reading.value;
      var fingerprint := Fingerprint(token);
      if fingerprint.Err? {
        return Err(fingerprint.error);
      }
      var found := store.Read(fingerprint.value);
      if found.Failed? {
        return Err(ProviderUnavailable);
      }
      if found.Missing? {
        return Err(RefreshTokenUnknown);
      }
      var record := found.record;
      if record.consumed {
        return Err(RefreshTokenReused);
      }
      if !(now < record.expiresAt) {
        return Err(TokenExpired);
      }
      refreshCalls := refreshCalls + [token];
      if seams.refresh.Err? {
        return Err(seams.refresh.error);
      }
      var rotated := seams.refresh.value;
      record := record.(consumed := true);
      var fault := store.Write(record, record.expiresAt - now);
      if fault.Some? {
        return Err(ProviderUnavailable);
      }
      if rotated.subject == "" {
        rotated := rotated.(subject := record.subject);
      }
      var failure := Issue(rotated, seams.stamp);
      if failure.Some? {
        return Err(failure.value);
      }
      return Ok(rotated);
    }
  }

  // ---------------------------------------------------------------- runs of operations

  datatype Op =
    | StartSession(session: Session, clock: Result<Instant>)
    | UseToken(token: RefreshToken, seams: Seams)
    | Script(fault: Option<string>)  // the store's next outcome
    | Evict(gone: set<Digest>)

  function After(st: RefreshStore, op: Op, lifetime: Duration): RefreshStore {
    match op
    case StartSession(session, clock) => AfterIssue(st, session, clock, lifetime).0
    case UseToken(token, seams) => AfterRotate(st, token, seams, lifetime).st
    case Script(fault) => st.(errors := st.errors + [fault])
    case Evict(gone) => st.(records := st.records - gone)
  }

  function AfterAll(st: RefreshStore, ops: seq<Op>, lifetime: Duration): RefreshStore {
    if ops == [] then st else After(AfterAll(st, ops[..|ops| - 1], lifetime), ops[|ops| - 1], lifetime)
  }

  /** The lineages after an operation: an issue starts one, a completed rotation lengthens one. */
  function Track(nodes: Nodes, st: RefreshStore, op: Op, lifetime: Duration): Nodes {
    match op
    case StartSession(session, clock) =>
      if AfterIssue(st, session, clock, lifetime).1.Some? then nodes
      else nodes[session.refreshToken := Node(session.refreshToken, 0, session.subject)]
    case UseToken(token, seams) =>
      var answer := AfterRotate(st, token, seams, lifetime).answer;
      if answer.Err? || token !in nodes then nodes else nodes[answer.value.refreshToken := Child(nodes, token)]
    case _ => nodes
  }

  function TrackAll(st: RefreshStore, ops: seq<Op>, lifetime: Duration): Nodes {
    if ops == [] then map[]
    else
      var past := ops[..|ops| - 1];
      Track(TrackAll(st, past, lifetime), AfterAll(st, past, lifetime), ops[|ops| - 1], lifetime)
  }

  /** An issue that succeeds starts a lineage at its own token; a rotation that succeeds puts its new
      token one deeper in the presented token's lineage, under the same subject; and neither moves
      any other token. */
  lemma TrackedLineages(nodes: Nodes, st: RefreshStore, op: Op, lifetime: Duration)
    ensures var after := Track(nodes, st, op, lifetime);
      && (op.StartSession? && op.clock.Ok? && op.session.refreshToken != "" && !Fails(st.errors) ==>
            after == nodes[op.session.refreshToken := Node(op.session.refreshToken, 0, op.session.subject)])
      && (op.UseToken? && AfterRotate(st, op.token, op.seams, lifetime).answer.Ok? && op.token in nodes ==>
            var next, place := op.seams.refresh.value.refreshToken, nodes[op.token];
            after == nodes[next := Node(place.root, place.depth + 1, place.subject)])
      && (op.Script? || op.Evict? ==> after == nodes)
  {
  }

  /** What the sequential guarantee asks of the provider: a token it hands out was not recorded
      before, and, when a rotation reaches it, a refreshed session names nobody or the session's own subject. */
  predicate Contracted(nodes: Nodes, st: RefreshStore, op: Op, lifetime: Duration) {
    match op
    case StartSession(session, _) => session.refreshToken !in nodes
    case UseToken(token, seams) =>
      AfterRotate(st, token, seams, lifetime).exchanged && seams.refresh.Ok? ==>
        && seams.refresh.value.refreshToken !in nodes
        && (seams.refresh.value.subject == "" || (token in nodes ==> seams.refresh.value.subject == nodes[token].subject))
    case _ => true
  }

  predicate ContractedRun(st: RefreshStore, ops: seq<Op>, lifetime: Duration) {
    ops == [] ||
    (var past := ops[..|ops| - 1];
     ContractedRun(st, past, lifetime) && Contracted(TrackAll(st, past, lifetime), AfterAll(st, past, lifetime), ops[|ops| - 1], lifetime))
  }

  lemma OpKeepsCoherent(nodes: Nodes, st: RefreshStore, op: Op, lifetime: Duration)
    requires Coherent(nodes, st.records) && Contracted(nodes, st, op, lifetime)
    ensures Coherent(Track(nodes, st, op, lifetime), After(st, op, lifetime).records)
  {
    match op
    case StartSession(session, clock) =>
      if AfterIssue(st, session, clock, lifetime).1.None? {
        var now, t := clock.value, session.refreshToken;
        IssueKeepsCoherent(nodes, st.records, t,
          RefreshRecord(session.subject, Digest(t), now, Expiry(session, now, lifetime), false));
      }
    case UseToken(token, seams) => RotateKeepsCoherent(nodes, st, token, seams, lifetime);
    case Script(_) =>
    case Evict(gone) => EvictionKeepsCoherent(nodes, st.records, gone);
  }

  /** How far a rotation gets: whether the provider is reached, whether the presented record is then
      marked, and which record replaces it. */
  lemma RotateStages(st: RefreshStore, token: RefreshToken, seams: Seams, lifetime: Duration)
    ensures var rotated, d := AfterRotate(st, token, seams, lifetime), Digest(token);
      && (rotated.exchanged ==> d in st.records && !st.records[d].consumed)
      && (!rotated.exchanged || seams.refresh.Err? ==> rotated.st.records == st.records && rotated.answer.Err?)
      && (rotated.exchanged && seams.refresh.Ok? && rotated.answer.Err? ==>
            || rotated.st.records == st.records
            || rotated.st.records == st.records[st.records[d].fingerprint := st.records[d].(consumed := true)])
      && (rotated.answer.Ok? ==>
            var session := Backfilled(seams.refresh.value, st.records[d]);
            && seams.stamp.Ok? && rotated.exchanged && rotated.answer.value == session
            && rotated.st.records ==
                 st.records[st.records[d].fingerprint := st.records[d].(consumed := true)]
                 [Digest(session.refreshToken) := IssuedRecord(session, seams.stamp.value, lifetime)])
  {
  }

  /** The record a session's refresh token is filed under. */
  function IssuedRecord(session: Session, now: Instant, lifetime: Duration): RefreshRecord {
    RefreshRecord(session.subject, Digest(session.refreshToken), now, Expiry(session, now, lifetime), false)
  }

  lemma RotateKeepsCoherent(nodes: Nodes, st: RefreshStore, token: RefreshToken, seams: Seams, lifetime: Duration)
    requires Coherent(nodes, st.records) && Contracted(nodes, st, UseToken(token, seams), lifetime)
    ensures Coherent(Track(nodes, st, UseToken(token, seams), lifetime), AfterRotate(st, token, seams, lifetime).st.records)
  {
    RotateStages(st, token, seams, lifetime);
    if AfterRotate(st, token, seams, lifetime).exchanged && seams.refresh.Ok? {
      var d := Digest(token);
      var consumed := st.records[d].(consumed := true);
      assert Live(st.records, token) && st.records[d].fingerprint == d;
      ConsumeKeepsCoherent(nodes, st.records, consumed);
      if AfterRotate(st, token, seams, lifetime).answer.Ok? {
        var session := Backfilled(seams.refresh.value, st.records[d]);
        CoherentMeansOneLive(nodes, st.records);
        RotationKeepsCoherent(nodes, st.records[d := consumed], token, session.refreshToken,
          IssuedRecord(session, seams.stamp.value, lifetime));
      }
    }
  }

  /** Whatever sequence of issues, rotations, store failures and evictions ran, with a provider
      that hands out fresh tokens for the right subject, the store stays coherent: each lineage
      has at most one live record, everything before a recorded token is retired, and the
      subject never changes along it. */
  lemma {:induction false} RunKeepsCoherent(errors: seq<Option<string>>, ops: seq<Op>, lifetime: Duration)
    requires ContractedRun(RefreshStore(map[], errors), ops, lifetime)
    ensures var st := RefreshStore(map[], errors);
      && Coherent(TrackAll(st, ops, lifetime), AfterAll(st, ops, lifetime).records)
      && OneLivePerLineage(TrackAll(st, ops, lifetime), AfterAll(st, ops, lifetime).records)
  {
    var st := RefreshStore(map[], errors);
    if ops != [] {
      var past := ops[..|ops| - 1];
      RunKeepsCoherent(errors, past, lifetime);
      OpKeepsCoherent(TrackAll(st, past, lifetime), AfterAll(st, past, lifetime), ops[|ops| - 1], lifetime);
    }
    CoherentMeansOneLive(TrackAll(st, ops, lifetime), AfterAll(st, ops, lifetime).records);
  }

  // ---------------------------------------------------------------- replay

  /** The operation does not put t into circulation again. */
  predicate NeverReissues(op: Op, t: RefreshToken) {
    match op
    case StartSession(session, _) => session.refreshToken != t
    case UseToken(_, seams) => seams.refresh.Ok? ==> seams.refresh.value.refreshToken != t
    case _ => true
  }

  /** Rotating t in this state never reaches the provider, and is refused as reused, as unknown
      once evicted, or because the clock or the store failed. */
  ghost predicate RefusesReplay(st: RefreshStore, t: RefreshToken) {
    forall seams, lifetime :: var rotated := AfterRotate(st, t, seams, lifetime);
      && !rotated.exchanged
      && rotated.answer.Err?
      && rotated.answer.error in {RefreshTokenReused, RefreshTokenUnknown, ProviderUnavailable}
  }

  predicate FiledRight(records: Records) {
    forall d :: d in records ==> records[d].fingerprint == d
  }

  lemma OpKeepsRetired(st: RefreshStore, op: Op, lifetime: Duration, t: RefreshToken)
    requires Retired(st.records, t) && FiledRight(st.records) && NeverReissues(op, t)
    ensures Retired(After(st, op, lifetime).records, t) && FiledRight(After(st, op, lifetime).records)
  {
  }

  /** A token once retired stays retired, and no replay of it reaches the provider, as long as
      the provider never hands that token out again; evictions do not matter. */
  lemma {:induction false} RetiredTokensStayRetired(st: RefreshStore, ops: seq<Op>, lifetime: Duration, t: RefreshToken)
    requires Retired(st.records, t) && FiledRight(st.records)
    requires forall i :: 0 <= i < |ops| ==> NeverReissues(ops[i], t)
    ensures var after := AfterAll(st, ops, lifetime);
      FiledRight(after.records) && Retired(after.records, t) && RefusesReplay(after, t)
  {
    if ops != [] {
      RetiredTokensStayRetired(st, ops[..|ops| - 1], lifetime, t);
      OpKeepsRetired(AfterAll(st, ops[..|ops| - 1], lifetime), ops[|ops| - 1], lifetime, t);
    }
  }

  /** After a successful rotation the presented token's record is consumed, and so its reuse is
      detected, exactly when the provider replaced the token. */
  lemma ReuseDetectedExactlyWhenReplaced(st: RefreshStore, token: RefreshToken, seams: Seams, lifetime: Duration)
    requires forall d :: d in st.records ==> st.records[d].fingerprint == d
    requires AfterRotate(st, token, seams, lifetime).answer.Ok?
    ensures var rotated := AfterRotate(st, token, seams, lifetime);
      && seams.refresh.Ok? && Digest(token) in rotated.st.records
      && (rotated.st.records[Digest(token)].consumed <==> seams.refresh.value.refreshToken != token)
  {
  }

  /** One use of a session whose provider carries the presented token forward. */
  datatype Turn = Turn(reading: Instant, stamp: Instant, session: Session)

  /** Each turn comes before the expiry the turn before it set. */
  predicate Timely(expiry: Instant, token: RefreshToken, turns: seq<Turn>, lifetime: Duration)
    decreases |turns|
  {
    turns != [] ==>
      && turns[0].session.refreshToken == token
      && turns[0].reading < expiry
      && Timely(Expiry(turns[0].session, turns[0].stamp, lifetime), token, turns[1..], lifetime)
  }

  /** Every turn succeeds, and leaves the record live until the expiry the turn set. */
  predicate AllSucceed(st: RefreshStore, token: RefreshToken, turns: seq<Turn>, lifetime: Duration)
    decreases |turns|
  {
    turns == [] ||
    (var rotated := AfterRotate(st, token, Seams(Ok(turns[0].reading), Ok(turns[0].session), Ok(turns[0].stamp)), lifetime);
     && rotated.answer.Ok? && Live(rotated.st.records, token)
     && rotated.st.records[Digest(token)].expiresAt == Expiry(turns[0].session, turns[0].stamp, lifetime)
     && AllSucceed(rotated.st, token, turns[1..], lifetime))
  }

  /** With a provider that does not rotate, the session survives any number of rotations: each
      leaves the same record live with its expiry renewed. */
  lemma {:induction false} CarriedTokenSurvives(st: RefreshStore, token: RefreshToken, turns: seq<Turn>, lifetime: Duration)
    requires token != "" && st.errors == [] && Live(st.records, token)
    requires st.records[Digest(token)].fingerprint == Digest(token)
    requires Timely(st.records[Digest(token)].expiresAt, token, turns, lifetime)
    ensures AllSucceed(st, token, turns, lifetime)
    decreases |turns|
  {
    if turns != [] {
      var seams := Seams(Ok(turns[0].reading), Ok(turns[0].session), Ok(turns[0].stamp));
      CarriedTokenSurvives(AfterRotate(st, token, seams, lifetime).st, token, turns[1..], lifetime);
    }
  }

  /** Each turn presents the token the turn before it handed out, before that one's expiry, and the
      provider hands out one never seen. */
  predicate TimelyChain(
    seen: set<RefreshToken>, expiry: Instant, token: RefreshToken, turns: seq<Turn>, lifetime: Duration)
    decreases |turns|
  {
    turns != [] ==>
      var next := turns[0].session.refreshToken;
      && next != "" && next !in seen
      && turns[0].reading < expiry
      && TimelyChain(seen + {next}, Expiry(turns[0].session, turns[0].stamp, lifetime), next, turns[1..], lifetime)
  }

  /** Every turn succeeds: the token it hands out is live until the expiry it set, for the session's
      subject, and every token presented so far is consumed. */
  ghost predicate AllRotate(
    st: RefreshStore, presented: set<RefreshToken>, subject: string, token: RefreshToken, turns: seq<Turn>,
    lifetime: Duration)
    decreases |turns|
  {
    turns == [] ||
    (var rotated := AfterRotate(st, token, Seams(Ok(turns[0].reading), Ok(turns[0].session), Ok(turns[0].stamp)), lifetime);
     var next := turns[0].session.refreshToken;
     && rotated.answer.Ok? && rotated.answer.value.refreshToken == next
     && LiveUntil(rotated.st.records, next, Expiry(turns[0].session, turns[0].stamp, lifetime))
     && (turns[0].session.subject == "" ==> rotated.st.records[Digest(next)].subject == subject)
     && AllConsumed(rotated.st.records, presented + {token})
     && AllRotate(rotated.st, presented + {token}, rotated.answer.value.subject, next, turns[1..], lifetime))
  }

  predicate LiveUntil(records: Records, token: RefreshToken, expiry: Instant) {
    Live(records, token) && records[Digest(token)].expiresAt == expiry
  }

  ghost predicate AllConsumed(records: Records, tokens: set<RefreshToken>) {
    forall u :: u in tokens ==> Digest(u) in records && records[Digest(u)].consumed
  }

  /** With a provider that rotates, a session survives any number of timely rotations with fresh
      tokens: each ends with the new token live and every one presented before it consumed. */
  lemma {:induction false} RotatedSessionSurvives(
    st: RefreshStore, seen: set<RefreshToken>, presented: set<RefreshToken>, token: RefreshToken, turns: seq<Turn>,
    lifetime: Duration)
    requires token != "" && st.errors == [] && Live(st.records, token) && FiledRight(st.records)
    requires token in seen && presented <= seen && AllConsumed(st.records, presented)
    requires TimelyChain(seen, st.records[Digest(token)].expiresAt, token, turns, lifetime)
    ensures AllRotate(st, presented, st.records[Digest(token)].subject, token, turns, lifetime)
    decreases |turns|
  {
    if turns != [] {
      var seams := Seams(Ok(turns[0].reading), Ok(turns[0].session), Ok(turns[0].stamp));
      var next, rotated := turns[0].session.refreshToken, AfterRotate(st, token, seams, lifetime);
      RotateStages(st, token, seams, lifetime);
      RotatedSessionSurvives(rotated.st, seen + {next}, presented + {token}, next, turns[1..], lifetime);
    }
  }
}
