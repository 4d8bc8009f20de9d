/** Runs of the rotation system that say what one operation does: alone it is the rotator's, and
    a replay in time is always recognised. */
module RotationRuns {
  import opened Common
  import opened Tokens
  import opened Stores
  import opened Lineage
  import opened Rotation
  import opened RotationProtocol

  // ---------------------------------------------------------------- one operation alone is the rotator's

  /** Takes one action of operation p. */
  lemma Go(cfg: Config, s: State, run: seq<Label>, now: State, p: nat, a: Action) returns (more: seq<Label>, next: State)
    requires Exec(cfg, s, run) == Some(now) && p < |now.procs| && Step(cfg, now, p, a).Some?
    ensures Exec(cfg, s, more) == Some(next) == Step(cfg, now, p, a)
  {
    more, next := run + [Act(p, a)], Step(cfg, now, p, a).value;
    assert more[..|run|] == run;
  }

  lemma Wait(cfg: Config, s: State, run: seq<Label>, now: State, to: Instant) returns (more: seq<Label>)
    requires Exec(cfg, s, run) == Some(now) && now.time <= to
    ensures Exec(cfg, s, more) == Some(now.(time := to))
  {
    more := run + [Tick(to)];
    assert more[..|run|] == run;
  }

  lemma RecordsPut(store: map<Digest, Entry>, d: Digest, entry: Entry)
    ensures RecordsOf(store[d := entry]) == RecordsOf(store)[d := entry.record]
  {
  }

  /** Recording a session, from the clock reading on. */
  lemma SoloIssue(
    cfg: Config, s: State, past: seq<Label>, now: State, p: nat, clock: Result<Instant>, errors: seq<Option<string>>)
    returns (run: seq<Label>, t: State)
    requires Exec(cfg, s, past) == Some(now) && p < |now.procs| && now.procs[p].Issuing?
    requires clock.Ok? ==> now.time <= clock.value
    requires clock.Err? ==> clock.error == ProviderUnavailable
    ensures Exec(cfg, s, run) == Some(t) && p < |t.procs|
    ensures var Issuing(of, session) := now.procs[p];
      var (st, failure) := AfterIssue(RefreshStore(RecordsOf(now.store), errors), session, clock, cfg.lifetime);
      && RecordsOf(t.store) == st.records
      && t.procs[p] == Done(of, if failure.Some? then Err(failure.value) else Ok(session))
  {
    run, t := past, now;
    if clock.Ok? {
      t := now.(time := clock.value);
      run := Wait(cfg, s, past, now, clock.value);
    }
    run, t := Go(cfg, s, run, t, p, ReadClock(clock.Ok?));
    if t.procs[p].Recording? {
      run, t := SoloRecord(cfg, s, run, t, p, NextFault(errors));
    }
  }

  lemma SoloRecord(cfg: Config, s: State, past: seq<Label>, now: State, p: nat, fault: Option<string>)
    returns (run: seq<Label>, t: State)
    requires Exec(cfg, s, past) == Some(now) && p < |now.procs| && now.procs[p].Recording?
    ensures Exec(cfg, s, run) == Some(t) && p < |t.procs|
    ensures var Recording(of, session, _, record) := now.procs[p];
      && t.procs[p] == Done(of, if fault.None? then Ok(session) else Err(ProviderUnavailable))
      && RecordsOf(t.store) ==
           if fault.None? then RecordsOf(now.store)[record.fingerprint := record] else RecordsOf(now.store)
  {
    var Recording(_, _, at, record) := now.procs[p];
    RecordsPut(now.store, record.fingerprint, Entry(record, now.time + (record.expiresAt - at)));
    run, t := Go(cfg, s, past, now, p, WriteStore(fault.None?, false));
  }

  /** A login that nothing interleaves with leaves behind what the rotator's issue does. */
  lemma SoloLogin(
    cfg: Config, s: State, p: nat, session: Session, clock: Result<Instant>, errors: seq<Option<string>>)
    returns (run: seq<Label>, t: State)
    requires p < |s.procs| && s.procs[p] == Login && Fresh(s, session.refreshToken)
    requires clock.Ok? ==> s.time <= clock.value
    requires clock.Err? ==> clock.error == ProviderUnavailable
    ensures Exec(cfg, s, run) == Some(t) && p < |t.procs|
    ensures var (st, failure) := AfterIssue(RefreshStore(RecordsOf(s.store), errors), session, clock, cfg.lifetime);
      && RecordsOf(t.store) == st.records
      && t.procs[p] == Done(None, if failure.Some? then Err(failure.value) else Ok(session))
  {
    run, t := Go(cfg, s, [], s, p, HandOut(session));
    run, t := SoloIssue(cfg, s, run, t, p, clock, errors);
  }

  /** What the provider may answer the one rotation with. */
  predicate MayAnswer(cfg: Config, s: State, token: RefreshToken, refresh: Result<Session>) {
    refresh.Ok? && Digest(token) in s.store ==>
      Allowed(cfg, s, token, s.store[Digest(token)].record, Granted(refresh.value))
  }

  /** Up to the provider: refused, or the record it will work from. */
  lemma SoloCheck(cfg: Config, s: State, p: nat, reading: Result<Instant>, errors: seq<Option<string>>)
    returns (run: seq<Label>, t: State)
    requires p < |s.procs| && s.procs[p].Rotating?
    requires reading.Ok? ==> reading.value == s.time
    ensures Exec(cfg, s, run) == Some(t) && t == s.(procs := t.procs) && p < |t.procs|
    ensures var token, d := s.procs[p].token, Digest(s.procs[p].token);
      t.procs[p] ==
        if reading.Err? then Done(Some(token), Err(ProviderUnavailable))
        else if token == "" then Done(Some(token), Err(RefreshTokenUnknown))
        else if NextFault(errors).Some? then Done(Some(token), Err(ProviderUnavailable))
        else if d !in s.store then Done(Some(token), Err(RefreshTokenUnknown))
        else if s.store[d].record.consumed then Done(Some(token), Err(RefreshTokenReused))
        else if !(s.time < s.store[d].record.expiresAt) then Done(Some(token), Err(TokenExpired))
        else Exchanging(token, s.time, s.store[d].record)
  {
    run, t := Go(cfg, s, [], s, p, ReadClock(reading.Ok?));
    if t.procs[p].Checking? {
      run, t := Go(cfg, s, run, t, p, ReadStore(NextFault(errors).None?));
    }
  }

  /** From the provider to the write that marks the presented record. */
  lemma SoloConsume(
    cfg: Config, s: State, past: seq<Label>, now: State, p: nat, refresh: Result<Session>, fault: Option<string>)
    returns (run: seq<Label>, t: State)
    requires Exec(cfg, s, past) == Some(now) && p < |now.procs| && now.procs[p].Exchanging?
    requires refresh.Ok? ==> Allowed(cfg, now, now.procs[p].token, now.procs[p].record, Granted(refresh.value))
    ensures Exec(cfg, s, run) == Some(t) && t.time == now.time && p < |t.procs|
    ensures var Exchanging(token, _, record) := now.procs[p];
      && RecordsOf(t.store) == (if refresh.Ok? && fault.None?
           then RecordsOf(now.store)[record.fingerprint := record.(consumed := true)] else RecordsOf(now.store))
      && t.procs[p] ==
           if refresh.Err? then Done(Some(token), Err(refresh.error))
           else if fault.Some? then Done(Some(token), Err(ProviderUnavailable))
           else Issuing(Some(token), Backfilled(refresh.value, record))
  {
    var Exchanging(_, at, record) := now.procs[p];
    run, t := Go(cfg, s, past, now, p,
      CallProvider(if refresh.Ok? then Granted(refresh.value) else Declined(refresh.error)));
    if refresh.Ok? {
      RecordsPut(t.store, record.fingerprint, Entry(record.(consumed := true), t.time + (record.expiresAt - at)));
      run, t := Go(cfg, s, run, t, p, WriteStore(fault.None?, false));
    }
  }

  /** A rotation that nothing interleaves with answers and leaves behind what the rotator's does,
      whatever its seams answer. */
  lemma SoloRotate(cfg: Config, s: State, p: nat, seams: Seams, errors: seq<Option<string>>)
    returns (run: seq<Label>, t: State)
    requires p < |s.procs| && s.procs[p].Rotating? && MayAnswer(cfg, s, s.procs[p].token, seams.refresh)
    requires seams.reading.Ok? ==> seams.reading.value == s.time
    requires seams.stamp.Ok? ==> s.time <= seams.stamp.value
    requires seams.stamp.Err? ==> seams.stamp.error == ProviderUnavailable
    ensures Exec(cfg, s, run) == Some(t) && p < |t.procs|
    ensures var token := s.procs[p].token;
      var rotated := AfterRotate(RefreshStore(RecordsOf(s.store), errors), token, seams, cfg.lifetime);
      RecordsOf(t.store) == rotated.st.records && t.procs[p] == Done(Some(token), rotated.answer)
  {
    run, t := SoloCheck(cfg, s, p, seams.reading, errors);
    if t.procs[p].Exchanging? {
      var rest := RestFaults(errors);
      run, t := SoloConsume(cfg, s, run, t, p, seams.refresh, NextFault(rest));
      if t.procs[p].Issuing? {
        run, t := SoloIssue(cfg, s, run, t, p, seams.stamp, RestFaults(rest));
      }
    }
  }

  /** Recording a rotation's replacement puts it one deeper in the presented token's lineage, under
      the same subject; recording a login's token starts a lineage; and no other token moves. */
  lemma RecordedPlace(cfg: Config, s: State, p: nat, a: Action)
    requires p < |s.procs| && s.procs[p].Recording? && Step(cfg, s, p, a).Some?
    ensures a.WriteStore?
    ensures var Recording(of, session, _, _) := s.procs[p];
      var nodes := Step(cfg, s, p, a).value.nodes;
      && (!a.ok && !a.landed ==> nodes == s.nodes)
      && ((a.ok || a.landed) && of.Some? && of.value in s.nodes ==>
            var place := s.nodes[of.value];
            nodes == s.nodes[session.refreshToken := Node(place.root, place.depth + 1, place.subject)])
      && ((a.ok || a.landed) && of.None? ==>
            nodes == s.nodes[session.refreshToken := Node(session.refreshToken, 0, session.subject)])
  {
  }

  // ---------------------------------------------------------------- a replay in time

  predicate HoldsRecord(pc: Pc) {
    pc.Exchanging? || pc.Consuming?
  }

  /** Whoever works from a token's record works from the expiry it is stored with. */
  ghost predicate Agree(s: State) {
    && (forall p :: 0 <= p < |s.procs| && HoldsRecord(s.procs[p]) && Digest(s.procs[p].token) in s.store ==>
          s.procs[p].record.expiresAt == s.store[Digest(s.procs[p].token)].record.expiresAt)
    && (forall p, q :: 0 <= p < |s.procs| && 0 <= q < |s.procs| ==> SameExpiry(s.procs[p], s.procs[q]))
  }

  predicate SameExpiry(a: Pc, b: Pc) {
    HoldsRecord(a) && HoldsRecord(b) && a.token == b.token ==> a.record.expiresAt == b.record.expiresAt
  }

  /** What a label files: a marked record with the expiry it was read with, or a token's first. */
  lemma NextFiles(cfg: Config, s: State, l: Label, d: Digest)
    requires Inv(s) && Next(cfg, s, l).Some? && d in Next(cfg, s, l).value.store
    ensures var r := Next(cfg, s, l).value.store[d].record;
      || (d in s.store && Next(cfg, s, l).value.store[d] == s.store[d])
      || (l.Act? && s.procs[l.proc].Consuming? && d == Digest(s.procs[l.proc].token)
          && r.expiresAt == s.procs[l.proc].record.expiresAt && r.consumed)
      || (l.Act? && s.procs[l.proc].Recording? && d.of !in s.nodes)
  {
    if l.Act? {
      assert ProcOk(s, l.proc);
    }
  }

  /** What record an operation comes to hold: the stored one, as it is. */
  lemma NextHolds(cfg: Config, s: State, l: Label, p: nat)
    requires Next(cfg, s, l).Some? && p < |Next(cfg, s, l).value.procs| && HoldsRecord(Next(cfg, s, l).value.procs[p])
    ensures p < |s.procs|
    ensures var t := Next(cfg, s, l).value;
      || (HoldsRecord(s.procs[p]) && t.procs[p].token == s.procs[p].token && t.procs[p].record == s.procs[p].record)
      || (l.Act? && l.proc == p && t.store == s.store && Digest(t.procs[p].token) in s.store
          && t.procs[p].record == s.store[Digest(t.procs[p].token)].record
          && forall q :: 0 <= q < |s.procs| && q != p ==> t.procs[q] == s.procs[q])
  {
  }

  lemma NextKeepsAgree(cfg: Config, s: State, l: Label)
    requires Inv(s) && Agree(s) && Next(cfg, s, l).Some?
    ensures Agree(Next(cfg, s, l).value)
  {
    var t := Next(cfg, s, l).value;
    forall p | 0 <= p < |t.procs| && HoldsRecord(t.procs[p]) && Digest(t.procs[p].token) in t.store
      ensures t.procs[p].record.expiresAt == t.store[Digest(t.procs[p].token)].record.expiresAt
    {
      NextHolds(cfg, s, l, p);
      NextFiles(cfg, s, l, Digest(t.procs[p].token));
      assert ProcOk(s, p);
    }
    forall p, q | 0 <= p < |t.procs| && 0 <= q < |t.procs| ensures SameExpiry(t.procs[p], t.procs[q]) {
      if HoldsRecord(t.procs[p]) && HoldsRecord(t.procs[q]) {
        NextHolds(cfg, s, l, p);
        NextHolds(cfg, s, l, q);
        assert SameExpiry(s.procs[p], s.procs[q]);
      }
    }
  }

  lemma {:induction false} RunAgrees(cfg: Config, s: State, run: seq<Label>)
    requires cfg.rejects && Initial(s) && Exec(cfg, s, run).Some?
    ensures Agree(Exec(cfg, s, run).value)
  {
    if run != [] {
      RunAgrees(cfg, s, run[..|run| - 1]);
      RunKeepsInv(cfg, s, run[..|run| - 1]);
      NextKeepsAgree(cfg, Exec(cfg, s, run[..|run| - 1]).value, run[|run| - 1]);
    }
  }

  /** The token's record is there, consumed, with this expiry. */
  ghost predicate Spent(s: State, t: RefreshToken, expiry: Instant) {
    && t in s.nodes && Digest(t) in s.store
    && s.store[Digest(t)].record.consumed && s.store[Digest(t)].record.expiresAt == expiry
  }

  /** Until its expiry a consumed record is neither evicted nor made usable again. */
  lemma NextKeepsSpent(cfg: Config, s: State, l: Label, t: RefreshToken, expiry: Instant)
    requires Inv(s) && Agree(s) && Retains(s) && Spent(s, t, expiry)
    requires Next(cfg, s, l).Some? && Next(cfg, s, l).value.time < expiry
    ensures Spent(Next(cfg, s, l).value, t, expiry)
  {
    var after := Next(cfg, s, l).value;
    if l.Act? {
      StepGrows(cfg, s, l.proc, l.action);
    }
    StaysFiled(cfg, s, l, Digest(t));
    NextFiles(cfg, s, l, Digest(t));
  }

  lemma StaysFiled(cfg: Config, s: State, l: Label, d: Digest)
    requires Next(cfg, s, l).Some? && d in s.store
    ensures d in Next(cfg, s, l).value.store || (l == Drop(d) && s.store[d].evictAt <= s.time)
    ensures s.time <= Next(cfg, s, l).value.time
  {
  }

  /** Where a replay can be whose token's record is still there. */
  predicate Caught(pc: Pc, t: RefreshToken) {
    || pc == Rotating(t)
    || (pc.Checking? && pc.token == t)
    || pc == Done(Some(t), Err(RefreshTokenReused))
    || pc == Done(Some(t), Err(ProviderUnavailable))
  }

  lemma NextKeepsCaught(cfg: Config, s: State, l: Label, p: nat, t: RefreshToken, expiry: Instant)
    requires t != "" && Spent(s, t, expiry) && p < |s.procs| && Caught(s.procs[p], t) && Next(cfg, s, l).Some?
    ensures p < |Next(cfg, s, l).value.procs| && Caught(Next(cfg, s, l).value.procs[p], t)
  {
  }

  lemma NextKeepsDone(cfg: Config, s: State, l: Label, p: nat)
    requires p < |s.procs| && s.procs[p].Done? && Next(cfg, s, l).Some?
    ensures p < |Next(cfg, s, l).value.procs| && Next(cfg, s, l).value.procs[p] == s.procs[p]
  {
  }

  /** No blank token is ever recorded. */
  lemma {:induction false} RunRecordsNoBlank(cfg: Config, s: State, run: seq<Label>)
    requires cfg.rejects && Initial(s) && Exec(cfg, s, run).Some?
    ensures "" !in Exec(cfg, s, run).value.nodes
  {
    if run != [] {
      var past, l := run[..|run| - 1], run[|run| - 1];
      RunRecordsNoBlank(cfg, s, past);
      RunKeepsInv(cfg, s, past);
      if l.Act? {
        NextRecordsNoBlank(cfg, Exec(cfg, s, past).value, l);
      }
    }
  }

  lemma NextRecordsNoBlank(cfg: Config, s: State, l: Label)
    requires Inv(s) && "" !in s.nodes && l.Act? && Next(cfg, s, l).Some?
    ensures "" !in Next(cfg, s, l).value.nodes
  {
    assert ProcOk(s, l.proc);
  }

  /** While the consumed record has not expired, its replay is on its way, or was answered reused or
      unavailable. */
  lemma {:induction false} ReplayIsCaught(
    cfg: Config, s: State, past: seq<Label>, future: seq<Label>, p: nat, t: RefreshToken, expiry: Instant)
    requires cfg.rejects && Initial(s) && Exec(cfg, s, past).Some? && Exec(cfg, s, past + future).Some?
    requires var before := Exec(cfg, s, past).value;
      Spent(before, t, expiry) && p < |before.procs| && before.procs[p] == Rotating(t)
    requires Exec(cfg, s, past + future).value.time < expiry
    ensures var after := Exec(cfg, s, past + future).value;
      Spent(after, t, expiry) && p < |after.procs| && Caught(after.procs[p], t)
  {
    if future == [] {
      assert past + future == past;
    } else {
      var run, shorter := past + future, past + future[..|future| - 1];
      assert run[..|run| - 1] == shorter;
      var now, l := Exec(cfg, s, shorter).value, run[|run| - 1];
      TimeMovesOn(cfg, now, l);
      ReplayIsCaught(cfg, s, past, future[..|future| - 1], p, t, expiry);
      RunKeepsInv(cfg, s, shorter);
      RunAgrees(cfg, s, shorter);
      RunRetains(cfg, s, shorter);
      RunRecordsNoBlank(cfg, s, shorter);
      NextKeepsSpent(cfg, now, l, t, expiry);
      NextKeepsCaught(cfg, now, l, p, t, expiry);
    }
  }

  lemma TimeMovesOn(cfg: Config, s: State, l: Label)
    requires Next(cfg, s, l).Some?
    ensures s.time <= Next(cfg, s, l).value.time
  {
  }

  /** A replay answered before the consumed record's expiry is answered reused, or unavailable when
      a seam failed, never unknown; and that stays its answer. */
  lemma {:induction false} ReplayInTimeIsReused(
    cfg: Config, s: State, past: seq<Label>, mid: seq<Label>, future: seq<Label>, p: nat, t: RefreshToken, expiry: Instant)
    requires cfg.rejects && Initial(s) && Exec(cfg, s, past).Some?
    requires Exec(cfg, s, past + mid).Some? && Exec(cfg, s, past + mid + future).Some?
    requires var before := Exec(cfg, s, past).value;
      Spent(before, t, expiry) && p < |before.procs| && before.procs[p] == Rotating(t)
    requires var answered := Exec(cfg, s, past + mid).value;
      answered.time < expiry && p < |answered.procs| && answered.procs[p].Done?
    ensures var after := Exec(cfg, s, past + mid + future).value;
      p < |after.procs| && after.procs[p] in {Done(Some(t), Err(RefreshTokenReused)), Done(Some(t), Err(ProviderUnavailable))}
  {
    if future == [] {
      assert past + mid + future == past + mid;
      ReplayIsCaught(cfg, s, past, mid, p, t, expiry);
    } else {
      var run, shorter := past + mid + future, past + mid + future[..|future| - 1];
      assert run[..|run| - 1] == shorter;
      ReplayInTimeIsReused(cfg, s, past, mid, future[..|future| - 1], p, t, expiry);
      NextKeepsDone(cfg, Exec(cfg, s, shorter).value, run[|run| - 1], p);
    }
  }
}
