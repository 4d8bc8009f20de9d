/** The per-resource token cache, in place, for one caller at a time.

    `Serve` says what one call answers and leaves behind; the class is proved against it and,
    beyond that, carries a run of FlightProtocol that its state is always the end of, so
    what is proved of every run holds of every history of the class. */
module TokenCaches {
  import opened Common
  import opened Tokens
  import opened ResourceTrees
  import opened Stores
  import opened Flight
  import P = FlightProtocol

  /** What the seams answer during one call: the clock before the store is read, the token
      source, and the clock after the mint. */
  datatype Seams = Seams(reading: Result<Instant>, minted: Result<AccessToken>, stamp: Result<Instant>)

  /** One call's answer, the store it leaves, and whether it called the token source. */
  datatype Served = Served(
    answer: Result<AccessToken>,
    entries: map<Key, AccessToken>,
    errors: seq<Option<string>>,
    asked: bool)

  function Serve(
    cfg: P.Config, entries: map<Key, AccessToken>, errors: seq<Option<string>>, name: string, seams: Seams): Served
  {
    var resolved := P.Resolve(cfg, name);
    if resolved.Err? then Served(Err(resolved.error), entries, errors, false)
    else if seams.reading.Err? then Served(Err(ProviderUnavailable), entries, errors, false)
    else
      var key, now, rest := resolved.value, seams.reading.value, RestFaults(errors);
      if NextFault(errors).Some? then Served(Err(ProviderUnavailable), entries, rest, false)
      else if key in entries && !entries[key].Expired(now, cfg.skew)
      then Served(Ok(entries[key]), entries, rest, false)
      else if seams.minted.Err? then Served(Err(seams.minted.error), entries, rest, true)
      else if seams.stamp.Err? then Served(Err(ProviderUnavailable), entries, rest, true)
      else if NextFault(rest).Some? then Served(Err(ProviderUnavailable), entries, RestFaults(rest), true)
      else
        var token := seams.minted.value.(resource := name);
        Served(Ok(token), entries[key := token], RestFaults(rest), true)
  }

  /** What a mint answers. */
  function MintAnswer(name: string, seams: Seams, errors: seq<Option<string>>): Result<AccessToken> {
    if seams.minted.Err? then Err(seams.minted.error)
    else if seams.stamp.Err? || NextFault(errors).Some? then Err(ProviderUnavailable)
    else Ok(seams.minted.value.(resource := name))
  }

  /** For how long a mint stores its token: to its expiry, or not at all once that has passed. */
  ghost function Lifetimes(seams: Seams): seq<Duration> {
    if seams.minted.Err? || seams.stamp.Err? then []
    else if seams.stamp.value < seams.minted.value.expiresAt then [seams.minted.value.expiresAt - seams.stamp.value]
    else [0]
  }

  /** A call's answer as the outcome the protocol speaks of. */
  function AsOutcome(answer: Result<AccessToken>): Outcome {
    match answer
    case Ok(token) => Outcome(token, None)
    case Err(p) => Fail(p)
  }

  /** The flight group after one undisturbed flight for the key. */
  function Flown(f: Flights, key: Key, o: Outcome): Flights {
    var id := |f.calls|;
    CloseCall(Remove(WriteErr(WriteToken(Register(f, key), id, o.token), id, o.err), key), id)
  }

  // ---------------------------------------------------------------- what a caller is answered

  /** Nothing happens but that the store's next outcome is used up, if it was reached. */
  ghost predicate Refuses(
    served: Served, entries: map<Key, AccessToken>, errors: seq<Option<string>>, problem: Problem)
  {
    served == Served(Err(problem), entries, errors, false)
  }

  /** Before the store is read: an undeclared name, a name without a key, and a clock that fails are
      refused in that order, and nothing is touched. */
  lemma UnreadCalls(cfg: P.Config, entries: map<Key, AccessToken>, errors: seq<Option<string>>, name: string, seams: Seams)
    ensures var served := Serve(cfg, entries, errors, name, seams);
      && (name !in cfg.declared ==> Refuses(served, entries, errors, ResourceUnregistered))
      && (name in cfg.declared && name !in cfg.keyOf ==> Refuses(served, entries, errors, ConfigInvalid))
      && (name in cfg.declared && name in cfg.keyOf && seams.reading.Err? ==>
            Refuses(served, entries, errors, ProviderUnavailable))
  {
  }

  /** The read uses up one outcome of the store. A token that outlives the reading by more than the
      skew is served as it is; anything else means the source is asked. */
  lemma ReadCalls(cfg: P.Config, entries: map<Key, AccessToken>, errors: seq<Option<string>>, name: string, seams: Seams)
    requires name in cfg.declared && name in cfg.keyOf && seams.reading.Ok?
    ensures var served, key, now := Serve(cfg, entries, errors, name, seams), cfg.keyOf[name], seams.reading.value;
      var rest := if errors == [] then [] else errors[1..];
      if errors != [] && errors[0].Some? then Refuses(served, entries, rest, ProviderUnavailable)
      else if key in entries && now + cfg.skew < entries[key].expiresAt
      then served == Served(Ok(entries[key]), entries, rest, false)
      else served.asked
  {
  }

  /** Once the source is asked, its failure is handed on, and the clock's and the store's are
      reported; otherwise its token, stamped with the name and otherwise as minted, is stored and
      answered. Whatever fails, nothing is stored. */
  lemma AskedCalls(cfg: P.Config, entries: map<Key, AccessToken>, errors: seq<Option<string>>, name: string, seams: Seams)
    requires Serve(cfg, entries, errors, name, seams).asked
    ensures name in cfg.keyOf
    ensures var served := Serve(cfg, entries, errors, name, seams);
      && (seams.minted.Err? ==> served.answer == Err(seams.minted.error))
      && (seams.minted.Ok? && (seams.stamp.Err? || (|errors| > 1 && errors[1].Some?)) ==>
            served.answer == Err(ProviderUnavailable))
      && (seams.minted.Ok? && seams.stamp.Ok? && !(|errors| > 1 && errors[1].Some?) ==>
            && served.answer.Ok? && Stamped(served.answer.value, seams.minted.value, name)
            && served.entries == entries[cfg.keyOf[name] := served.answer.value])
      && (served.answer.Err? ==> served.entries == entries)
  {
  }

  /** The minted token, for this resource. */
  predicate Stamped(token: AccessToken, minted: AccessToken, name: string) {
    && token.resource == name && token.value == minted.value && token.scopes == minted.scopes
    && token.issuedAt == minted.issuedAt && token.expiresAt == minted.expiresAt
  }

  // ---------------------------------------------------------------- one call as a protocol run

  /** Takes one action of the caller at position me. */
  lemma Go(cfg: P.Config, start: P.State, past: seq<P.Label>, world: P.State, me: nat, a: P.Action)
    returns (run: seq<P.Label>, next: P.State)
    requires P.Exec(cfg, start, past) == Some(world) && me < |world.callers|
    requires P.Step(cfg, world, me, a).Some?
    ensures past <= run && P.Exec(cfg, start, run) == Some(next) == P.Step(cfg, world, me, a)
    ensures |next.callers| == |world.callers|
    ensures forall g :: 0 <= g < |world.callers| && g != me ==> next.callers[g] == world.callers[g]
  {
    P.Extend(cfg, start, past, P.Act(me, a));
    P.StepMovesOne(cfg, world, me, a);
    run, next := past + [P.Act(me, a)], P.Step(cfg, world, me, a).value;
  }

  /** From a finished mint to both its fields written. */
  lemma PublishIsARun(cfg: P.Config, start: P.State, past: seq<P.Label>, world: P.State, me: nat, id: CallId, o: Outcome)
    returns (run: seq<P.Label>, next: P.State)
    requires P.Exec(cfg, start, past) == Some(world) && me < |world.callers|
    requires world.callers[me].pc == P.Minted(id, o) && id < |world.flights.calls|
    ensures past <= run && P.Exec(cfg, start, run) == Some(next)
    ensures next.callers == world.callers[me := world.callers[me].(pc := P.Published(id, o))]
    ensures next.store == world.store && next.minted == world.minted
    ensures next.flights == WriteErr(WriteToken(world.flights, id, o.token), id, o.err)
  {
    run, next := Go(cfg, start, past, world, me, P.Publish);
    run, next := Go(cfg, start, run, next, me, P.Publish);
  }

  /** From a finished mint to the return: publish, leave, close. */
  lemma SettleIsARun(cfg: P.Config, start: P.State, past: seq<P.Label>, world: P.State, me: nat, id: CallId, o: Outcome)
    returns (run: seq<P.Label>, next: P.State)
    requires P.Exec(cfg, start, past) == Some(world) && me < |world.callers|
    requires world.callers[me].pc == P.Minted(id, o) && id < |world.flights.calls|
    ensures past <= run && P.Exec(cfg, start, run) == Some(next)
    ensures next.callers == world.callers[me := world.callers[me].(pc := P.Returned(o, P.Led(id)))]
    ensures next.store == world.store && next.minted == world.minted
    ensures next.flights ==
      CloseCall(Remove(WriteErr(WriteToken(world.flights, id, o.token), id, o.err), P.KeyFor(cfg, world.callers[me].name)), id)
  {
    run, next := PublishIsARun(cfg, start, past, world, me, id, o);
    run, next := Go(cfg, start, run, next, me, P.LeaveTable);
    run, next := Go(cfg, start, run, next, me, P.CloseDone);
  }

  /** Leading the flight, from the call of the source to the end of the mint. */
  lemma SourceIsARun(
    cfg: P.Config, start: P.State, past: seq<P.Label>, world: P.State, me: nat, id: CallId,
    errors: seq<Option<string>>, name: string, seams: Seams)
    returns (run: seq<P.Label>, next: P.State)
    requires P.Exec(cfg, start, past) == Some(world) && me < |world.callers|
    requires world.callers[me] == P.Caller(name, P.Minting(id))
    ensures past <= run && P.Exec(cfg, start, run) == Some(next)
    ensures var answer, key := MintAnswer(name, seams, errors), P.KeyFor(cfg, name);
      && next.callers == world.callers[me := P.Caller(name, P.Minted(id, AsOutcome(answer)))]
      && next.store == (if answer.Ok? then world.store[key := answer.value] else world.store)
      && next.flights == world.flights
      && next.minted == world.minted + [me]
  {
    run, next := Go(cfg, start, past, world, me, P.CallSource(seams.minted));
    if seams.minted.Ok? {
      run, next := Go(cfg, start, run, next, me, P.ReadClock(seams.stamp));
      if seams.stamp.Ok? {
        run, next := Go(cfg, start, run, next, me, P.WriteStore(NextFault(errors).None?, false));
      }
    }
  }

  /** From a miss, with the flight empty, to the return. */
  lemma MintIsARun(
    cfg: P.Config, start: P.State, past: seq<P.Label>, world: P.State, me: nat,
    errors: seq<Option<string>>, name: string, seams: Seams)
    returns (run: seq<P.Label>, next: P.State)
    requires P.Exec(cfg, start, past) == Some(world) && me < |world.callers|
    requires world.callers[me] == P.Caller(name, P.Missed) && world.flights.table == map[]
    ensures past <= run && P.Exec(cfg, start, run) == Some(next)
    ensures var answer, key := MintAnswer(name, seams, errors), P.KeyFor(cfg, name);
      && next.callers == world.callers[me := P.Caller(name, P.Returned(AsOutcome(answer), P.Led(|world.flights.calls|)))]
      && next.store == (if answer.Ok? then world.store[key := answer.value] else world.store)
      && next.flights == Flown(world.flights, key, AsOutcome(answer))
      && next.minted == world.minted + [me]
  {
    var id, answer := |world.flights.calls|, MintAnswer(name, seams, errors);
    run, next := Go(cfg, start, past, world, me, P.EnterFlight);
    run, next := SourceIsARun(cfg, start, run, next, me, id, errors, name, seams);
    run, next := SettleIsARun(cfg, start, run, next, me, id, AsOutcome(answer));
  }

  /** Serving one more caller, alone, extends the run that led here to one that ends in what
      `Serve` leaves behind, with the caller answered what `Serve` answers. */
  lemma ServeIsARun(
    cfg: P.Config, start: P.State, past: seq<P.Label>, world: P.State,
    errors: seq<Option<string>>, name: string, seams: Seams)
    returns (run: seq<P.Label>, next: P.State)
    requires P.Exec(cfg, start, past) == Some(world) && world.flights.table == map[]
    ensures past <= run && P.Exec(cfg, P.WithCaller(start, P.Caller(name, P.Start)), run) == Some(next)
    ensures var served, me := Serve(cfg, world.store, errors, name, seams), |world.callers|;
      && next.store == served.entries
      && next.flights ==
          (if served.asked then Flown(world.flights, P.KeyFor(cfg, name), AsOutcome(served.answer)) else world.flights)
      && next.minted == (if served.asked then world.minted + [me] else world.minted)
      && |next.callers| == me + 1 && next.callers[..me] == world.callers
      && next.callers[me].name == name
      && next.callers[me].pc.Returned? && next.callers[me].pc.outcome == AsOutcome(served.answer)
  {
    var caller, me := P.Caller(name, P.Start), |world.callers|;
    P.IdleCaller(cfg, start, past, caller);
    var start' := P.WithCaller(start, caller);
    run, next := Go(cfg, start', past, P.WithCaller(world, caller), me, P.ReadClock(seams.reading));
    if next.callers[me].pc.Reading? {
      run, next := Go(cfg, start', run, next, me, P.ReadStore(NextFault(errors).None?));
      if next.callers[me].pc.Missed? {
        run, next := MintIsARun(cfg, start', run, next, me, RestFaults(errors), name, seams);
      }
    }
  }

  method ByName(names: seq<string>, tokens: seq<AccessToken>) returns (byName: map<string, AccessToken>)
    requires |names| == |tokens| && forall i, j :: 0 <= i < j < |names| ==> names[i] != names[j]
    ensures forall name :: name in byName <==> name in names
    ensures forall i :: 0 <= i < |names| ==> byName[names[i]] == tokens[i]
  {
    byName := map[];
    for i := 0 to |tokens|
      invariant forall name :: name in byName <==> name in names[..i]
      invariant forall j :: 0 <= j < i ==> byName[names[j]] == tokens[j]
    {
      byName := byName[names[i] := tokens[i]];
    }
    assert names[..|names|] == names;
  }

  // ---------------------------------------------------------------- the cache in place

  class TokenCache {
    const tree: ResourceTree
    const keyOf: map<string, Key>
    const skew: Duration
    const store: MemoryTokenStore
    const flight: TokenFlight
    // The resources the token source was asked to mint for, oldest first.
    var requests: seq<Resource>
    // A run of the protocol that ends in this cache's state, with every caller answered.
    ghost var start: P.State
    ghost var run: seq<P.Label>
    ghost var world: P.State

    function Cfg(): P.Config {
      P.Config(tree.index.Keys, keyOf, skew)
    }

    ghost predicate Valid()
      reads this, store, flight, flight.issued
    {
      && tree.Named()
      && flight.Valid()
      && P.Initial(start)
      && P.Exec(Cfg(), start, run) == Some(world)
      && world.store == store.entries
      && world.flights == flight.View()
      && flight.table == map[]
      && |world.minted| == |requests|
      && AllAnswered(world.callers)
    }

    constructor (tree: ResourceTree, keyOf: map<string, Key>, skew: Duration, store: MemoryTokenStore)
      requires tree.Named()
      ensures Valid() && this.tree == tree && this.keyOf == keyOf && this.skew == skew && this.store == store
      ensures fresh(flight) && flight.issued == [] && requests == []
      ensures start == world == P.State(store.entries, NO_FLIGHTS, [], [], []) && run == []
    {
      this.tree, this.keyOf, this.skew, this.store := tree, keyOf, skew, store;
      flight := new TokenFlight();
      requests := [];
      start, run := P.State(store.entries, NO_FLIGHTS, [], [], []), [];
      world := P.State(store.entries, NO_FLIGHTS, [], [], []);
    }

    /** Returns a live token for the named resource, minting one only when the store holds
        nothing usable. */
    method Token(name: string, seams: Seams) returns (answer: Result<AccessToken>)
      requires Valid()
      modifies this`requests, this`start, this`run, this`world, store, flight
      ensures Valid() && old(flight.issued) <= flight.issued && fresh(set c | c in flight.issued[|old(flight.issued)|..])
      ensures var served := Serve(Cfg(), old(store.entries), old(store.errors), name, seams);
        && answer == served.answer && store.entries == served.entries && store.errors == served.errors
        && requests == old(requests) + (if served.asked then [tree.index[name]] else [])
        && store.ttls == old(store.ttls) + (if served.asked then Lifetimes(seams) else [])
      ensures start == P.WithCaller(old(start), P.Caller(name, P.Start)) && old(run) <= run
      ensures var answered, before := world.callers, old(world).callers;
        && |answered| == |before| + 1 && answered[..|before|] == before
        && answered[|before|].name == name && answered[|before|].pc.Returned?
        && answered[|before|].pc.outcome == AsOutcome(answer)
    {
      ghost var errors, before := store.errors, world.callers;
      answer := Answer(name, seams);
      run, world := ServeIsARun(Cfg(), start, run, world, errors, name, seams);
      start := P.WithCaller(start, P.Caller(name, P.Start));
      OneMoreAnswered(before, world.callers);
    }

    /** The steps of `Token`; `Token` itself only adds the record of the run they make. */
    method Answer(name: string, seams: Seams) returns (answer: Result<AccessToken>)
      requires tree.Named() && flight.Valid() && flight.table == map[]
      modifies this`requests, store, flight
      ensures flight.Valid() && old(flight.issued) <= flight.issued
      ensures fresh(set c | c in flight.issued[|old(flight.issued)|..])
      ensures var served := Serve(Cfg(), old(store.entries), old(store.errors), name, seams);
        && answer == served.answer && store.entries == served.entries && store.errors == served.errors
        && requests == old(requests) + (if served.asked then [tree.index[name]] else [])
        && store.ttls == old(store.ttls) + (if served.asked then Lifetimes(seams) else [])
        && flight.View() == if served.asked then Flown(old(flight.View()), keyOf[name], AsOutcome(answer)) else old(flight.View())
    {
      var resource := tree.Require(name);
      if resource.Err? {
        return Err(resource.error);
      }
      if name !in keyOf {
        return Err(ConfigInvalid);
      }
      var key := keyOf[name];
      if seams.reading.Err? {
        return Err(ProviderUnavailable);
      }
      var now := seams.reading.value;
      var cached := store.Get(key);
      if cached.Failed? {
        return Err(ProviderUnavailable);
      }
      if cached.Found? && !cached.record.Expired(now, skew) {
        return Ok(cached.record);
      }
      answer := Mint(key, resource.value, seams);
    }

    /** Mints inside the flight. Nobody else is in it, so the call is never a joined one. */
    method Mint(key: Key, resource: Resource, seams: Seams) returns (answer: Result<AccessToken>)
      requires flight.Valid() && flight.table == map[]
      modifies this`requests, store, flight
      ensures flight.Valid() && old(flight.issued) <= flight.issued
      ensures fresh(set c | c in flight.issued[|old(flight.issued)|..])
      ensures requests == old(requests) + [resource]
      ensures answer == MintAnswer(resource.name, seams, old(store.errors))
      ensures store.entries == if answer.Ok? then old(store.entries)[key := answer.value] else old(store.entries)
      ensures store.errors == if seams.minted.Ok? && seams.stamp.Ok? then RestFaults(old(store.errors)) else old(store.errors)
      ensures store.ttls == old(store.ttls) + Lifetimes(seams)
      ensures flight.View() == Flown(old(flight.View()), key, AsOutcome(answer))
    {
      ghost var id := |flight.issued|;
      var call, joined := flight.Enter(key);
      answer := MintAndStore(key, resource, seams);
      var outcome := AsOutcome(answer);
      flight.Publish(call, outcome.token, outcome.err, id);
      flight.Leave(key);
      flight.Close(call, id);
    }

    /** The function the flight runs: asks the source, stamps the token with its resource, and
        stores it for its remaining lifetime. */
    method MintAndStore(key: Key, resource: Resource, seams: Seams) returns (answer: Result<AccessToken>)
      modifies this`requests, store
      ensures requests == old(requests) + [resource]
      ensures answer == MintAnswer(resource.name, seams, old(store.errors))
      ensures store.entries == if answer.Ok? then old(store.entries)[key := answer.value] else old(store.entries)
      ensures store.errors == if seams.minted.Ok? && seams.stamp.Ok? then RestFaults(old(store.errors)) else old(store.errors)
      ensures store.ttls == old(store.ttls) + Lifetimes(seams)
    {
      requests := requests + [resource];
      if seams.minted.Err? {
        return Err(seams.minted.error);
      }
      var token := seams.minted.value.(resource := resource.name);
      if seams.stamp.Err? {
        return Err(ProviderUnavailable);
      }
      var fault := store.Set(key, token, token.TTL(seams.stamp.value));
      if fault.Some? {
        return Err(ProviderUnavailable);
      }
      return Ok(token);
    }

    /** Resolves a token for every declared resource, in order; the first failure fails them all. */
    method All(seams: seq<Seams>) returns (answer: Result<map<string, AccessToken>>)
      requires Valid() && |seams| == |tree.ordered|
      modifies this`requests, this`start, this`run, this`world, store, flight
      ensures Valid()
      ensures answer.Ok? ==> forall name :: name in answer.value <==> name in tree.index
      ensures |world.callers| >= |old(world).callers|
      ensures answer.Ok? ==> AllGot(world.callers[|old(world).callers|..], NamesOf(tree.ordered), answer.value)
      ensures answer.Err? ==>
        && |world.callers| > |old(world).callers|
        && world.callers[|world.callers| - 1].pc.outcome.err == Some(answer.error)
    {
      var names := tree.Names();
      var tokens := TokensFor(names, seams);
      if tokens.Err? {
        return Err(tokens.error);
      }
      var byName := ByName(names, tokens.value);
      GotByName(world.callers[|old(world).callers|..], names, tokens.value, byName);
      return Ok(byName);
    }

    /** The batch: one token per name, in the order of the names. */
    method TokensFor(names: seq<string>, seams: seq<Seams>) returns (answer: Result<seq<AccessToken>>)
      requires Valid() && |seams| == |names|
      modifies this`requests, this`start, this`run, this`world, store, flight
      ensures Valid() && |world.callers| >= |old(world).callers|
      ensures answer.Ok? ==> GotEach(world.callers[|old(world).callers|..], names, answer.value)
      ensures answer.Err? ==>
        && |world.callers| > |old(world).callers|
        && world.callers[|world.callers| - 1].pc.outcome.err == Some(answer.error)
    {
      ghost var before := |world.callers|;
      var tokens: seq<AccessToken> := [];
      for i := 0 to |names|
        invariant Valid()
        invariant old(flight.issued) <= flight.issued && fresh(set c | c in flight.issued[|old(flight.issued)|..])
        invariant before <= |world.callers| && GotEach(world.callers[before..], names[..i], tokens)
      {
        ghost var callers := world.callers;
        var resolved := Token(names[i], seams[i]);
        if resolved.Err? {
          return Err(resolved.error);
        }
        GotOneMore(callers, world.callers, before, names, tokens, resolved.value);
        tokens := tokens + [resolved.value];
      }
      assert names[..|names|] == names;
      return Ok(tokens);
    }

    /** Evicts the stored token of the named resource. */
    method Invalidate(name: string) returns (failure: Option<Problem>)
      requires Valid()
      modifies store, this`run, this`world
      ensures Valid() && world.callers == old(world).callers && requests == old(requests)
      ensures name !in keyOf ==>
        failure == Some(ConfigInvalid) && store.entries == old(store.entries) && store.errors == old(store.errors)
      ensures name in keyOf ==>
        && store.errors == RestFaults(old(store.errors))
        && failure == (if NextFault(old(store.errors)).Some? then Some(ProviderUnavailable) else None)
        && store.entries == if failure.Some? then old(store.entries) else old(store.entries) - {keyOf[name]}
    {
      if name !in keyOf {
        return Some(ConfigInvalid);
      }
      var key := keyOf[name];
      var fault := store.Delete(key);
      if fault.Some? {
        return Some(ProviderUnavailable);
      }
      P.Extend(Cfg(), start, run, P.Drop({key}));
      run, world := run + [P.Drop({key})], world.(store := world.store - {key});
      return None;
    }

    /** What holds of every protocol run holds here: every answer this cache has given is a token
        for the name asked, and so is every entry it owns. */
    lemma AnswersAreOwn()
      requires Valid() && P.KeysDistinct(Cfg()) && P.StoreOwned(Cfg(), start)
      ensures P.StoreOwned(Cfg(), world) && P.AnswersOwn(world)
    {
      P.RunKeepsOwned(Cfg(), start, run);
      assert forall g :: 0 <= g < |world.callers| ==> P.CarriesOwn(Cfg(), world.callers[g]);
    }
  }

  ghost predicate AllAnswered(callers: seq<P.Caller>) {
    forall g :: 0 <= g < |callers| ==> callers[g].pc.Returned?
  }

  lemma OneMoreAnswered(before: seq<P.Caller>, after: seq<P.Caller>)
    requires AllAnswered(before) && |after| == |before| + 1 && after[..|before|] == before
    requires after[|before|].pc.Returned?
    ensures AllAnswered(after)
  {
    assert forall g :: 0 <= g < |before| ==> after[g] == before[g];
  }

  /** The caller asked for the name and was answered the token. */
  predicate Got(caller: P.Caller, name: string, token: AccessToken) {
    caller.name == name && caller.pc.Returned? && caller.pc.outcome == Outcome(token, None)
  }

  ghost predicate GotEach(answered: seq<P.Caller>, names: seq<string>, tokens: seq<AccessToken>) {
    |answered| == |names| == |tokens| && forall i :: 0 <= i < |names| ==> Got(answered[i], names[i], tokens[i])
  }

  /** The callers asked for these names, in this order, and each was answered the token filed under its name. */
  ghost predicate AllGot(answered: seq<P.Caller>, names: seq<string>, byName: map<string, AccessToken>) {
    && |answered| == |names|
    && forall i :: 0 <= i < |names| ==> names[i] in byName && Got(answered[i], names[i], byName[names[i]])
  }

  lemma GotOneMore(
    before: seq<P.Caller>, after: seq<P.Caller>, start: nat, names: seq<string>, tokens: seq<AccessToken>, token: AccessToken)
    requires start <= |before| && |after| == |before| + 1 && after[..|before|] == before
    requires |tokens| < |names| && GotEach(before[start..], names[..|tokens|], tokens)
    requires Got(after[|before|], names[|tokens|], token)
    ensures GotEach(after[start..], names[..|tokens| + 1], tokens + [token])
  {
    assert after[start..] == before[start..] + [after[|before|]];
  }

  lemma GotByName(answered: seq<P.Caller>, names: seq<string>, tokens: seq<AccessToken>, byName: map<string, AccessToken>)
    requires GotEach(answered, names, tokens)
    requires forall i :: 0 <= i < |names| ==> names[i] in byName && byName[names[i]] == tokens[i]
    ensures AllGot(answered, names, byName)
  {
  }

  /** The caller was answered a token for its own name. */
  predicate AnsweredOwn(caller: P.Caller) {
    caller.pc.Returned? && caller.pc.outcome.err.None? && caller.pc.outcome.token.resource == caller.name
  }

  lemma {:induction false} FileByName(answered: seq<P.Caller>, names: seq<string>) returns (byName: map<string, AccessToken>)
    requires forall i, j :: 0 <= i < j < |names| ==> names[i] != names[j]
    requires |answered| == |names|
    requires forall i :: 0 <= i < |names| ==> AnsweredOwn(answered[i]) && answered[i].name == names[i]
    ensures AllGot(answered, names, byName)
    ensures forall name :: name in byName <==> name in names
    ensures forall name :: name in byName ==> byName[name].resource == name
    decreases |names|
  {
    byName := map[];
    if names != [] {
      var last := |names| - 1;
      byName := FileByName(answered[..last], names[..last]);
      byName := byName[names[last] := answered[last].pc.outcome.token];
      assert names == names[..last] + [names[last]];
      assert forall i :: 0 <= i < last ==> answered[..last][i] == answered[i] && names[..last][i] == names[i];
    }
  }

  /** The batch at once: in any run in which the batch's callers, one a name and interleaved with
      each other and with anything else, have all been answered, there is a map whose keys are
      exactly the names, with each name's own token from its own caller's answer. */
  lemma BatchAtOnce(
    cfg: P.Config, s: P.State, run: seq<P.Label>, answered: seq<P.Caller>, names: seq<string>)
    returns (byName: map<string, AccessToken>)
    requires P.KeysDistinct(cfg) && P.Initial(s) && P.StoreOwned(cfg, s) && P.Exec(cfg, s, run).Some?
    requires forall i, j :: 0 <= i < j < |names| ==> names[i] != names[j]
    requires |answered| == |names| && forall i :: 0 <= i < |names| ==>
      && answered[i] in P.Exec(cfg, s, run).value.callers && answered[i].name == names[i]
      && answered[i].pc.Returned? && answered[i].pc.outcome.err.None?
    ensures AllGot(answered, names, byName)
    ensures forall name :: name in byName <==> name in names
    ensures forall name :: name in byName ==> byName[name].resource == name
  {
    P.RunKeepsOwned(cfg, s, run);
    forall i | 0 <= i < |names| ensures AnsweredOwn(answered[i]) {
      assert P.CarriesOwn(cfg, answered[i]);
    }
    byName := FileByName(answered, names);
  }

  // ---------------------------------------------------------------- why a second mint happens

  /** What can happen to a cache used by one caller at a time. */
  datatype Op =
    | Ask(name: string, seams: Seams)
    | Forget(keys: set<Key>)  // invalidation or eviction
    | Script(fault: Option<string>)  // the store's next outcome

  function After(cfg: P.Config, entries: map<Key, AccessToken>, errors: seq<Option<string>>, op: Op): Served {
    match op
    case Ask(name, seams) => Serve(cfg, entries, errors, name, seams)
    case Forget(keys) => Served(Err(ConfigInvalid), entries - keys, errors, false)
    case Script(fault) => Served(Err(ConfigInvalid), entries, errors + [fault], false)
  }

  /** A reason to mint again for key k, given that t was stored under it. */
  predicate Reason(cfg: P.Config, op: Op, k: Key, t: AccessToken) {
    match op
    case Ask(name, seams) =>
      P.Usable(cfg, name) && P.KeyFor(cfg, name) == k && seams.reading.Ok? && t.expiresAt <= seams.reading.value + cfg.skew
    case Forget(keys) => k in keys
    case Script(_) => false
  }

  /** No call for key k asks the source, and each that succeeds is answered t. */
  predicate ServesOnly(
    cfg: P.Config, entries: map<Key, AccessToken>, errors: seq<Option<string>>, ops: seq<Op>, k: Key, t: AccessToken)
    decreases |ops|
  {
    ops == [] ||
    (var served := After(cfg, entries, errors, ops[0]);
     && (ops[0].Ask? && P.Usable(cfg, ops[0].name) && P.KeyFor(cfg, ops[0].name) == k ==>
         !served.asked && (served.answer.Ok? ==> served.answer.value == t))
     && ServesOnly(cfg, served.entries, served.errors, ops[1..], k, t))
  }

  /** A successful call leaves the answered token stored under its key. */
  lemma AnswerIsStored(cfg: P.Config, entries: map<Key, AccessToken>, errors: seq<Option<string>>, name: string, seams: Seams)
    ensures var served := Serve(cfg, entries, errors, name, seams);
      served.answer.Ok? ==> P.KeyFor(cfg, name) in served.entries && served.entries[P.KeyFor(cfg, name)] == served.answer.value
  {
  }

  /** Once a token is stored under k, the source is not asked for k again until the token is
      within the skew of its expiry, or invalidated, or evicted. */
  lemma {:induction false} SecondMintNeedsReason(
    cfg: P.Config, entries: map<Key, AccessToken>, errors: seq<Option<string>>, ops: seq<Op>, k: Key)
    requires k in entries
    requires forall i :: 0 <= i < |ops| ==> !Reason(cfg, ops[i], k, entries[k])
    ensures ServesOnly(cfg, entries, errors, ops, k, entries[k])
    decreases |ops|
  {
    if ops != [] {
      assert !Reason(cfg, ops[0], k, entries[k]);
      var served := After(cfg, entries, errors, ops[0]);
      assert k in served.entries && served.entries[k] == entries[k];
      forall i | 0 <= i < |ops[1..]| ensures !Reason(cfg, ops[1..][i], k, entries[k]) {
        assert !Reason(cfg, ops[i + 1], k, entries[k]);
      }
      SecondMintNeedsReason(cfg, served.entries, served.errors, ops[1..], k);
    }
  }
}
