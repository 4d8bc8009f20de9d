/** Deferred-login nonces: minted once, redeemed at most once, one operation at a time. */
module Deferred {
  import opened Common
  import opened Tokens
  import opened Stores

  type Nonce = string
  type Records = map<Digest, HandoffRecord>

  datatype Handoff = Handoff(token: Nonce, expiresAt: Instant)
  datatype OneTimeToken = OneTimeToken(value: string, expiresAt: Instant)
  datatype OneTimeRequest = OneTimeRequest(subject: string, email: Option<string>)

  // ---------------------------------------------------------------- what a nonce is

  /** The life of one nonce. */
  datatype Life = Absent | Fresh(request: OneTimeRequest, expiresAt: Instant) | Spent

  datatype Verdict = Accepted(request: OneTimeRequest) | Unknown | Consumed | Expired

  /** Redeeming spends a fresh nonce whatever the verdict, and only a fresh unexpired one is accepted. */
  function Redeem(life: Life, now: Instant): (Life, Verdict) {
    match life
    case Absent => (Absent, Unknown)
    case Fresh(request, expiresAt) => (Spent, if now < expiresAt then Accepted(request) else Expired)
    case Spent => (Spent, Consumed)
  }

  function RequestOf(record: HandoffRecord): OneTimeRequest {
    OneTimeRequest(record.subject, record.email)
  }

  /** The life the stored records give a nonce. */
  function LifeOf(records: Records, nonce: Nonce): Life {
    var d := Digest(nonce);
    if d !in records then Absent
    else if records[d].consumed then Spent
    else Fresh(RequestOf(records[d]), records[d].expiresAt)
  }

  // ---------------------------------------------------------------- the store's operations

  /** What consuming leaves behind. */
  function Marked(records: Records, d: Digest): Records {
    if d in records then records[d := records[d].(consumed := true)] else records
  }

  /** The verdict on the record a consume answered with. */
  function Decide(found: Option<HandoffRecord>, now: Instant): Verdict {
    if found.None? then Unknown
    else if found.value.consumed then Consumed
    else if !(now < found.value.expiresAt) then Expired
    else Accepted(RequestOf(found.value))
  }

  function Lookup(records: Records, d: Digest): Option<HandoffRecord> {
    if d in records then Some(records[d]) else None
  }

  /** Consuming one nonce moves that nonce as `Redeem` says and no other. */
  lemma ConsumeRedeems(records: Records, nonce: Nonce, now: Instant)
    ensures (LifeOf(Marked(records, Digest(nonce)), nonce), Decide(Lookup(records, Digest(nonce)), now))
         == Redeem(LifeOf(records, nonce), now)
    ensures forall other :: other != nonce ==> LifeOf(Marked(records, Digest(nonce)), other) == LifeOf(records, other)
  {
  }

  function ProblemOf(verdict: Verdict): Problem
    requires !verdict.Accepted?
  {
    match verdict
    case Unknown => DeferredTokenUnknown
    case Consumed => DeferredTokenConsumed
    case Expired => DeferredTokenExpired
  }

  // ---------------------------------------------------------------- one operation

  datatype AfterMint = AfterMint(records: Records, answer: Result<Handoff>)

  /** What minting a nonce for the request answers and leaves behind; `fault` is the store's. */
  function Mints(
    records: Records, request: OneTimeRequest, clock: Result<Instant>, nonce: Nonce, fault: Option<string>,
    lifetime: Duration): AfterMint
  {
    if request.subject == "" then AfterMint(records, Err(TokenClaimMissing))
    else if clock.Err? || fault.Some? then AfterMint(records, Err(ProviderUnavailable))
    else
      var d, now := Digest(nonce), clock.value;
      AfterMint(
        records[d := HandoffRecord(d, request.subject, request.email, now, now + lifetime, false)],
        Ok(Handoff(nonce, now + lifetime)))
  }

  datatype AfterExchange = AfterExchange(records: Records, answer: Result<OneTimeToken>, asked: Option<OneTimeRequest>)

  /** What exchanging the nonce answers and leaves behind, and what it asks of the provider. */
  function Exchanges(
    records: Records, nonce: Nonce, clock: Result<Instant>, fault: Option<string>, provider: Result<OneTimeToken>)
    : AfterExchange
  {
    if nonce == "" then AfterExchange(records, Err(DeferredTokenUnknown), None)
    else if clock.Err? || fault.Some? then AfterExchange(records, Err(ProviderUnavailable), None)
    else
      var verdict := Redeem(LifeOf(records, nonce), clock.value).1;
      var left := Marked(records, Digest(nonce));
      if verdict.Accepted? then AfterExchange(left, provider, Some(verdict.request))
      else AfterExchange(left, Err(ProblemOf(verdict)), None)
  }

  // ---------------------------------------------------------------- what a caller is answered

  /** A mint for nobody, and a clock or store that fails, are refused in that order and file nothing;
      otherwise exactly the record of the request is filed, unconsumed, for the lifetime. */
  lemma MintedNonces(
    records: Records, request: OneTimeRequest, clock: Result<Instant>, nonce: Nonce, fault: Option<string>,
    lifetime: Duration)
    ensures var after := Mints(records, request, clock, nonce, fault, lifetime);
      && (request.subject == "" ==> after == AfterMint(records, Err(TokenClaimMissing)))
      && (request.subject != "" && (clock.Err? || fault.Some?) ==> after == AfterMint(records, Err(ProviderUnavailable)))
      && (request.subject != "" && clock.Ok? && fault.None? ==>
            var expiry := clock.value + lifetime;
            && after.answer == Ok(Handoff(nonce, expiry))
            && after.records == records[Digest(nonce) :=
                 HandoffRecord(Digest(nonce), request.subject, request.email, clock.value, expiry, false)])
  {
  }

  /** A blank nonce, and a clock or store that fails, are refused in that order and consume nothing. */
  lemma UnreadNonces(
    records: Records, nonce: Nonce, clock: Result<Instant>, fault: Option<string>, provider: Result<OneTimeToken>)
    ensures var after := Exchanges(records, nonce, clock, fault, provider);
      && (nonce == "" ==> after == AfterExchange(records, Err(DeferredTokenUnknown), None))
      && (nonce != "" && (clock.Err? || fault.Some?) ==>
            after == AfterExchange(records, Err(ProviderUnavailable), None))
  {
  }

  /** An unknown nonce is answered unknown; a consumed one consumed, expired or not; an unconsumed
      one expired from its expiry on; and before it the provider is asked for its subject and
      email, and its answer handed on. Whatever the answer, the record is consumed afterwards. */
  lemma ExchangedNonces(records: Records, nonce: Nonce, now: Instant, provider: Result<OneTimeToken>)
    requires nonce != ""
    ensures var after, d := Exchanges(records, nonce, Ok(now), None, provider), Digest(nonce);
      && (d !in records ==> after == AfterExchange(records, Err(DeferredTokenUnknown), None))
      && (d in records ==>
            var record := records[d];
            && after.records == records[d :=
                 HandoffRecord(record.digest, record.subject, record.email, record.issuedAt, record.expiresAt, true)]
            && (record.consumed ==> after.answer == Err(DeferredTokenConsumed) && after.asked == None)
            && (!record.consumed && record.expiresAt <= now ==>
                  after.answer == Err(DeferredTokenExpired) && after.asked == None)
            && (!record.consumed && now < record.expiresAt ==>
                  after.answer == provider && after.asked == Some(OneTimeRequest(record.subject, record.email))))
  {
  }

  // ---------------------------------------------------------------- the minter in place

  class Minter {
    const store: MemoryDeferredStore
    const lifetime: Duration
    // The one-time tokens asked of the provider, oldest first.
    var oneTimeCalls: seq<OneTimeRequest>

    constructor (store: MemoryDeferredStore, lifetime: Duration)
      ensures this.store == store && this.lifetime == lifetime && oneTimeCalls == []
    {
      this.store, this.lifetime, oneTimeCalls := store, lifetime, [];
    }

    /** Issues a nonce bound to an authenticated session; `nonce` is the random source's. */
    method Mint(session: Session, email: Option<string>, clock: Result<Instant>, nonce: Nonce)
      returns (answer: Result<Handoff>)
      modifies store
      ensures session.subject == "" ==> answer == Err(TokenClaimMissing)
      ensures session.subject != "" && clock.Err? ==> answer == Err(ProviderUnavailable)
      ensures session.subject == "" || clock.Err? ==> store.records == old(store.records) && store.errors == old(store.errors)
      ensures session.subject != "" && clock.Ok? ==>
        && store.errors == RestFaults(old(store.errors))
        && answer == (if NextFault(old(store.errors)).Some? then Err(ProviderUnavailable)
                      else Ok(Handoff(nonce, clock.value + lifetime)))
      ensures answer.Ok? ==>
        && LifeOf(store.records, nonce) == Fresh(OneTimeRequest(session.subject, email), answer.value.expiresAt)
        && store.records - {Digest(nonce)} == old(store.records) - {Digest(nonce)}
        && store.records[Digest(nonce)].issuedAt == clock.value
      ensures answer.Err? ==> store.records == old(store.records)
      ensures store.ttls == old(store.ttls) + (if session.subject != "" && clock.Ok? then [lifetime] else [])
      ensures AfterMint(store.records, answer) == Mints(
        old(store.records), OneTimeRequest(session.subject, email), clock, nonce, NextFault(old(store.errors)), lifetime)
    {
      if session.subject == "" {
        return Err(TokenClaimMissing);
      }
      if clock.Err? {
        return Err(ProviderUnavailable);
      }
      var now := clock.value;
      var expiry := now + lifetime;
      var record := HandoffRecord(Digest(nonce), session.subject, email, now, expiry, false);
      var fault := store.Put(record, lifetime);
      if fault.Some? {
        return Err(ProviderUnavailable);
      }
      return Ok(Handoff(nonce, expiry));
    }

    /** Consumes a nonce and mints the provider's one-time login token it stands for. */
    method Exchange(nonce: Nonce, clock: Result<Instant>, provider: Result<OneTimeToken>)
      returns (answer: Result<OneTimeToken>)
      modifies this`oneTimeCalls, store
      ensures nonce == "" ==> answer == Err(DeferredTokenUnknown)
      ensures nonce != "" && (clock.Err? || NextFault(old(store.errors)).Some?) ==> answer == Err(ProviderUnavailable)
      ensures store.errors == if nonce == "" || clock.Err? then old(store.errors) else RestFaults(old(store.errors))
      ensures nonce == "" || clock.Err? || NextFault(old(store.errors)).Some? ==>
        store.records == old(store.records) && oneTimeCalls == old(oneTimeCalls)
      ensures nonce != "" && clock.Ok? && NextFault(old(store.errors)).None? ==>
        var (life, verdict) := Redeem(LifeOf(old(store.records), nonce), clock.value);
        && LifeOf(store.records, nonce) == life
        && (forall other :: other != nonce ==> LifeOf(store.records, other) == LifeOf(old(store.records), other))
        && store.records.Keys == old(store.records).Keys
        && oneTimeCalls == old(oneTimeCalls) + (if verdict.Accepted? then [verdict.request] else [])
        && answer == if verdict.Accepted? then provider else Err(ProblemOf(verdict))
      ensures var after := Exchanges(old(store.records), nonce, clock, NextFault(old(store.errors)), provider);
        && store.records == after.records && answer == after.answer
        && oneTimeCalls == old(oneTimeCalls) + (if after.asked.Some? then [after.asked.value] else [])
    {
      if nonce == "" {
        return Err(DeferredTokenUnknown);
      }
      if clock.Err? {
        return Err(ProviderUnavailable);
      }
      var now := clock.value;
      var consumed := store.Consume(Digest(nonce));
      if consumed.Failed? {
        return Err(ProviderUnavailable);
      }
      if consumed.Missing? {
        return Err(DeferredTokenUnknown);
      }
      var record := consumed.record;
      if record.consumed {
        return Err(DeferredTokenConsumed);
      }
      if !(now < record.expiresAt) {
        return Err(DeferredTokenExpired);
      }
      oneTimeCalls := oneTimeCalls + [OneTimeRequest(record.subject, record.email)];
      return provider;
    }
  }
}
