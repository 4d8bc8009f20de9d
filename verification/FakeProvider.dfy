/** The in-memory identity provider, and what its refresh tokens make of the rotation guarantee. */
module FakeProviders {
  import opened Common
  import opened Tokens
  import opened Stores
  import opened Lineage
  import opened Rotation
  import opened ResourceTrees

  const SUFFIX := "-rotated"

  // Lifetimes in milliseconds.
  const ACCESS_LIFETIME: Duration := 600_000
  const REFRESH_LIFETIME: Duration := 1_209_600_000

  function Decimal(n: nat): (text: string)
    ensures |text| > 0 && (|text| == 1 <==> n < 10)
  {
    if n < 10 then [('0' as int + n) as char] else Decimal(n / 10) + [('0' as int + n % 10) as char]
  }

  /** What asking for a resource's token sends. */
  datatype ResourceTokenRequest = ResourceTokenRequest(
    subject: string, refreshToken: RefreshToken, resource: Resource)

  const NO_RESOURCE := Resource("", "", [])

  /** The n-th access token the provider grants. */
  function Granted(resource: Resource, now: Instant, n: nat): AccessToken {
    AccessToken("access-" + resource.name + "-" + Decimal(n), resource.name, resource.scopes, now, now + ACCESS_LIFETIME)
  }

  /** What a refresh answers: a rotating provider extends the presented token, another carries it on. */
  function Refreshed(rotates: bool, now: Instant, minted: nat, fault: Option<string>, token: RefreshToken): Result<Session> {
    if fault.Some? then Err(Upstream(fault.value))
    else Ok(Session("", Granted(NO_RESOURCE, now, minted + 1), if rotates then token + SUFFIX else token, Some(now + REFRESH_LIFETIME)))
  }

  class FakeProvider {
    const rotates: bool
    const now: Instant
    var resourceErrors: seq<Option<string>>
    var refreshErrors: seq<Option<string>>
    var resourceCalls: seq<ResourceTokenRequest>
    var refreshCalls: seq<RefreshToken>
    var minted: nat

    constructor (rotates: bool, now: Instant)
      ensures this.rotates == rotates && this.now == now && minted == 0
      ensures resourceErrors == [] && refreshErrors == [] && resourceCalls == [] && refreshCalls == []
    {
      this.rotates, this.now, minted := rotates, now, 0;
      resourceErrors, refreshErrors, resourceCalls, refreshCalls := [], [], [], [];
    }

    /** A failed call is recorded, and mints nothing. */
    method ResourceToken(request: ResourceTokenRequest) returns (answer: Result<AccessToken>)
      modifies this`resourceErrors, this`resourceCalls, this`minted
      ensures resourceCalls == old(resourceCalls) + [request] && resourceErrors == RestFaults(old(resourceErrors))
      ensures NextFault(old(resourceErrors)).Some? ==>
        answer == Err(Upstream(NextFault(old(resourceErrors)).value)) && minted == old(minted)
      ensures NextFault(old(resourceErrors)).None? ==>
        answer == Ok(Granted(request.resource, now, minted)) && minted == old(minted) + 1
    {
      resourceCalls := resourceCalls + [request];
      var fault := NextFault(resourceErrors);
      resourceErrors := RestFaults(resourceErrors);
      if fault.Some? {
        return Err(Upstream(fault.value));
      }
      var token := Grant(request.resource);
      return Ok(token);
    }

    method Refresh(token: RefreshToken) returns (answer: Result<Session>)
      modifies this`refreshErrors, this`refreshCalls, this`minted
      ensures answer == Refreshed(rotates, now, old(minted), NextFault(old(refreshErrors)), token)
      ensures refreshCalls == old(refreshCalls) + [token] && refreshErrors == RestFaults(old(refreshErrors))
      ensures minted == if answer.Ok? then old(minted) + 1 else old(minted)
    {
      refreshCalls := refreshCalls + [token];
      var fault := NextFault(refreshErrors);
      refreshErrors := RestFaults(refreshErrors);
      if fault.Some? {
        return Err(Upstream(fault.value));
      }
      var rotated := token;
      if rotates {
        rotated := token + SUFFIX;
      }
      var access := Grant(NO_RESOURCE);
      return Ok(Session("", access, rotated, Some(now + REFRESH_LIFETIME)));
    }

    method Grant(resource: Resource) returns (token: AccessToken)
      modifies this`minted
      ensures minted == old(minted) + 1 && token == Granted(resource, now, minted)
    {
      minted := minted + 1;
      return Granted(resource, now, minted);
    }
  }

  lemma {:induction false} DecimalsDiffer(m: nat, n: nat)
    requires Decimal(m) == Decimal(n)
    ensures m == n
  {
    var a, b := Decimal(m), Decimal(n);
    assert a[|a| - 1] as int - '0' as int == m % 10 && b[|b| - 1] as int - '0' as int == n % 10;
    if m >= 10 && n >= 10 {
      assert a[..|a| - 1] == Decimal(m / 10) && b[..|b| - 1] == Decimal(n / 10);
      DecimalsDiffer(m / 10, n / 10);
    }
  }

  /** Two grants for one resource are never the same token. */
  lemma GrantsDiffer(resource: Resource, now: Instant, later: Instant, m: nat, n: nat)
    ensures Granted(resource, now, m).value == Granted(resource, later, n).value <==> m == n
  {
    var prefix := "access-" + resource.name + "-";
    if prefix + Decimal(m) == prefix + Decimal(n) {
      assert (prefix + Decimal(m))[|prefix|..] == Decimal(m);
      assert (prefix + Decimal(n))[|prefix|..] == Decimal(n);
      DecimalsDiffer(m, n);
    }
  }

  /** A grant is for the resource asked for, from the provider's clock on for ten minutes. */
  lemma GrantCarries(resource: Resource, now: Instant, n: nat)
    ensures var token := Granted(resource, now, n);
      && token.resource == resource.name && token.scopes == resource.scopes
      && token.issuedAt == now && token.expiresAt == now + 10 * 60 * 1_000
      && token.value == "access-" + resource.name + "-" + Decimal(n)
  {
  }

  /** A refresh names nobody, and lasts fourteen days; its token is the presented one, extended where
      the provider rotates; and a scripted failure is handed on. */
  lemma RefreshCarries(rotates: bool, now: Instant, minted: nat, fault: Option<string>, token: RefreshToken)
    ensures var answer := Refreshed(rotates, now, minted, fault, token);
      && (fault.Some? ==> answer == Err(Upstream(fault.value)))
      && (fault.None? ==>
            && answer.Ok? && answer.value.subject == ""
            && answer.value.access == Granted(Resource("", "", []), now, minted + 1)
            && answer.value.refreshToken == (if rotates then token + "-rotated" else token)
            && answer.value.refreshExpiresAt == Some(now + 14 * 24 * 60 * 60 * 1_000))
  {
  }

  /** A count in decimal: its last digit after the count of its tens. */
  lemma DecimalSpelling(n: nat)
    ensures n < 10 ==> Decimal(n) == ["0123456789"[n]]
    ensures n >= 10 ==> Decimal(n) == Decimal(n / 10) + ["0123456789"[n % 10]]
  {
  }

  // ---------------------------------------------------------------- the rotating provider keeps its contract

  /** The token k rotations after this one. */
  function Nth(token: RefreshToken, k: nat): RefreshToken {
    if k == 0 then token else Nth(token, k - 1) + SUFFIX
  }

  lemma {:induction false} NthGrows(token: RefreshToken, k: nat)
    ensures |Nth(token, k)| == |token| + 8 * k
  {
    if k > 0 {
      NthGrows(token, k - 1);
    }
  }

  /** Tokens whose rotations meet are rotations one of the other. */
  lemma {:induction false} NthMeet(a: RefreshToken, i: nat, b: RefreshToken, j: nat)
    requires Nth(a, i) == Nth(b, j) && i <= j
    ensures a == Nth(b, j - i)
  {
    if i > 0 {
      var x, y := Nth(a, i - 1), Nth(b, j - 1);
      assert (x + SUFFIX)[..|x + SUFFIX| - 8] == x && (y + SUFFIX)[..|y + SUFFIX| - 8] == y;
      NthMeet(a, i - 1, b, j - 1);
    }
  }

  /** Neither token is, or becomes by rotation, the other. */
  ghost predicate Unrelated(a: RefreshToken, b: RefreshToken) {
    forall k: nat :: Nth(a, k) != b && Nth(b, k) != a
  }

  /** Every recorded token is its lineage's first, rotated as often as its depth says, and no
      lineage's first token becomes another's by rotation. */
  ghost predicate Shaped(nodes: Nodes) {
    && (forall t :: t in nodes ==> t == Nth(nodes[t].root, nodes[t].depth))
    && (forall t, u :: t in nodes && u in nodes ==> nodes[t].root == nodes[u].root || Unrelated(nodes[t].root, nodes[u].root))
  }

  /** The operation ran against this provider, and a session it starts is unrelated to those before. */
  ghost predicate AgainstFake(nodes: Nodes, op: Op) {
    match op
    case StartSession(session, _) => forall t :: t in nodes ==> Unrelated(session.refreshToken, nodes[t].root)
    case UseToken(token, seams) =>
      seams.refresh.Ok? ==> exists now, minted: nat :: seams.refresh == Refreshed(true, now, minted, None, token)
    case _ => true
  }

  ghost predicate RunAgainstFake(st: RefreshStore, ops: seq<Op>, lifetime: Duration) {
    ops == [] ||
    (var past := ops[..|ops| - 1];
     RunAgainstFake(st, past, lifetime) && AgainstFake(TrackAll(st, past, lifetime), ops[|ops| - 1]))
  }

  /** The next token of a lineage's deepest one was never recorded. */
  lemma NextIsFresh(nodes: Nodes, token: RefreshToken)
    requires Shaped(nodes) && token in nodes && Deepest(nodes, token)
    ensures token + SUFFIX == Nth(nodes[token].root, nodes[token].depth + 1)
    ensures token + SUFFIX !in nodes
  {
    var next, root, depth := token + SUFFIX, nodes[token].root, nodes[token].depth + 1;
    if next in nodes {
      var r, d := nodes[next].root, nodes[next].depth;
      assert Nth(root, depth) == Nth(r, d);
      if depth <= d { NthMeet(root, depth, r, d); } else { NthMeet(r, d, root, depth); }
      assert r == root;
      NthGrows(root, depth);
      NthGrows(root, d);
    }
  }

  lemma RootIsFresh(nodes: Nodes, token: RefreshToken)
    requires Shaped(nodes) && forall t :: t in nodes ==> Unrelated(token, nodes[t].root)
    ensures token !in nodes
  {
    forall t | t in nodes ensures t != token {
      assert Nth(nodes[t].root, nodes[t].depth) != token;
    }
  }

  lemma StartKeepsShaped(nodes: Nodes, token: RefreshToken, subject: string)
    requires Shaped(nodes) && forall t :: t in nodes ==> Unrelated(token, nodes[t].root)
    ensures Shaped(nodes[token := Node(token, 0, subject)])
  {
    RootIsFresh(nodes, token);
  }

  lemma RotationKeepsShaped(nodes: Nodes, token: RefreshToken)
    requires Shaped(nodes) && token in nodes && Deepest(nodes, token)
    ensures Shaped(nodes[token + SUFFIX := Child(nodes, token)])
  {
    NextIsFresh(nodes, token);
  }

  lemma LiveRotatesShaped(nodes: Nodes, records: Records, token: RefreshToken)
    requires Coherent(nodes, records) && Shaped(nodes) && Live(records, token)
    ensures token in nodes && token + SUFFIX !in nodes && Shaped(nodes[token + SUFFIX := Child(nodes, token)])
  {
    assert Digest(token) in records;
    CoherentMeansOneLive(nodes, records);
    NextIsFresh(nodes, token);
    RotationKeepsShaped(nodes, token);
  }

  lemma UseTracks(nodes: Nodes, st: RefreshStore, token: RefreshToken, seams: Seams, lifetime: Duration)
    ensures AfterRotate(st, token, seams, lifetime).exchanged ==> Live(st.records, token)
    ensures var after := Track(nodes, st, UseToken(token, seams), lifetime);
      after == nodes ||
      (&& AfterRotate(st, token, seams, lifetime).exchanged && seams.refresh.Ok? && token in nodes
       && after == nodes[seams.refresh.value.refreshToken := Child(nodes, token)])
  {
  }

  lemma UseAgainstFake(nodes: Nodes, st: RefreshStore, token: RefreshToken, seams: Seams, lifetime: Duration)
    requires Coherent(nodes, st.records) && Shaped(nodes) && AgainstFake(nodes, UseToken(token, seams))
    ensures Contracted(nodes, st, UseToken(token, seams), lifetime)
    ensures Shaped(Track(nodes, st, UseToken(token, seams), lifetime))
  {
    UseTracks(nodes, st, token, seams, lifetime);
    if Live(st.records, token) {
      LiveRotatesShaped(nodes, st.records, token);
    }
  }

  lemma StartAgainstFake(nodes: Nodes, st: RefreshStore, session: Session, clock: Result<Instant>, lifetime: Duration)
    requires Shaped(nodes) && AgainstFake(nodes, StartSession(session, clock))
    ensures Contracted(nodes, st, StartSession(session, clock), lifetime)
    ensures Shaped(Track(nodes, st, StartSession(session, clock), lifetime))
  {
    RootIsFresh(nodes, session.refreshToken);
    StartKeepsShaped(nodes, session.refreshToken, session.subject);
  }

  lemma OpAgainstFake(nodes: Nodes, st: RefreshStore, op: Op, lifetime: Duration)
    requires Coherent(nodes, st.records) && Shaped(nodes) && AgainstFake(nodes, op)
    ensures Contracted(nodes, st, op, lifetime) && Shaped(Track(nodes, st, op, lifetime))
  {
    match op
    case StartSession(session, clock) => StartAgainstFake(nodes, st, session, clock, lifetime);
    case UseToken(token, seams) => UseAgainstFake(nodes, st, token, seams, lifetime);
    case _ =>
  }

  /** Against the rotating provider every sequential run keeps the contract, and so the lineages
      stay coherent with one live record each, although the provider answers from the presented
      token alone and would rotate a replayed token again. */
  lemma {:induction false} RotatingFakeKeepsContract(errors: seq<Option<string>>, ops: seq<Op>, lifetime: Duration)
    requires RunAgainstFake(RefreshStore(map[], errors), ops, lifetime)
    ensures var st := RefreshStore(map[], errors);
      && ContractedRun(st, ops, lifetime) && Shaped(TrackAll(st, ops, lifetime))
      && Coherent(TrackAll(st, ops, lifetime), AfterAll(st, ops, lifetime).records)
      && OneLivePerLineage(TrackAll(st, ops, lifetime), AfterAll(st, ops, lifetime).records)
  {
    var st := RefreshStore(map[], errors);
    if ops != [] {
      var past := ops[..|ops| - 1];
      RotatingFakeKeepsContract(errors, past, lifetime);
      OpAgainstFake(TrackAll(st, past, lifetime), AfterAll(st, past, lifetime), ops[|ops| - 1], lifetime);
    }
    RunKeepsCoherent(errors, ops, lifetime);
  }
}
