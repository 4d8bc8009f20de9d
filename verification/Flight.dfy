/** The single-flight group that collapses concurrent mints for one cache key.

    `Flights` is the shared state as a value: the table of in-flight calls and every
    call object ever created. Each function below is one atomic region of
    `tokenFlight.do`; the class carries them out in place, and the protocol in
    FlightProtocol interleaves them. */
module Flight {
  import opened Common
  import opened Tokens

  type Key = string
  type CallId = nat

  datatype Outcome = Outcome(token: AccessToken, err: Option<Problem>)

  function Fail(problem: Problem): Outcome {
    Outcome(ZERO_TOKEN, Some(problem))
  }

  datatype Call = Call(token: AccessToken, err: Option<Problem>, done: bool)

  datatype Flights = Flights(table: map<Key, CallId>, calls: seq<Call>)

  const NO_FLIGHTS := Flights(map[], [])

  function Register(f: Flights, key: Key): Flights {
    Flights(f.table[key := |f.calls|], f.calls + [Call(ZERO_TOKEN, None, false)])
  }

  function WriteToken(f: Flights, call: CallId, token: AccessToken): Flights
    requires call < |f.calls|
  {
    f.(calls := f.calls[call := f.calls[call].(token := token)])
  }

  function WriteErr(f: Flights, call: CallId, err: Option<Problem>): Flights
    requires call < |f.calls|
  {
    f.(calls := f.calls[call := f.calls[call].(err := err)])
  }

  function Remove(f: Flights, key: Key): Flights {
    f.(table := f.table - {key})
  }

  function CloseCall(f: Flights, call: CallId): Flights
    requires call < |f.calls|
  {
    f.(calls := f.calls[call := f.calls[call].(done := true)])
  }

  /** One in-flight mint; `done` is whether its channel has been closed. */
  class TokenCall {
    var token: AccessToken
    var err: Option<Problem>
    var done: bool

    constructor ()
      ensures token == ZERO_TOKEN && err == None && !done
    {
      token, err, done := ZERO_TOKEN, None, false;
    }

    function Value(): Call
      reads this
    {
      Call(token, err, done)
    }
  }

  class TokenFlight {
    var calls: map<Key, TokenCall>
    // Every call object ever registered, oldest first, and where the table points into it.
    ghost var issued: seq<TokenCall>
    ghost var table: map<Key, CallId>

    ghost predicate Valid()
      reads this
    {
      && (forall i, j :: 0 <= i < j < |issued| ==> issued[i] != issued[j])
      && table.Keys == calls.Keys
      && (forall k :: k in table ==> table[k] < |issued| && issued[table[k]] == calls[k])
    }

    ghost function View(): Flights
      reads this, issued
    {
      Flights(table, seq(|issued|, i requires 0 <= i < |issued| reads this, issued => issued[i].Value()))
    }

    constructor ()
      ensures Valid() && View() == NO_FLIGHTS && issued == []
    {
      calls, issued, table := map[], [], map[];
    }

    /** Looks the key up under the lock: joins the call in flight, or registers a new one. */
    method Enter(key: Key) returns (call: TokenCall, joined: bool)
      requires Valid()
      modifies this
      ensures Valid()
      ensures joined == (key in old(table))
      ensures joined ==> View() == old(View()) && issued == old(issued) && call == issued[table[key]]
      ensures !joined ==> fresh(call) && issued == old(issued) + [call] && View() == Register(old(View()), key)
    {
      if key in calls {
        return calls[key], true;
      }
      call := new TokenCall();
      calls := calls[key := call];
      table := table[key := |issued|];
      issued := issued + [call];
      return call, false;
    }

    /** Writes the outcome of the finished mint into its call, token first. */
    method Publish(call: TokenCall, token: AccessToken, err: Option<Problem>, ghost id: CallId)
      requires Valid()
      requires id < |issued| && issued[id] == call
      modifies call
      ensures Valid()
      ensures View() == WriteErr(WriteToken(old(View()), id, token), id, err)
    {
      call.token := token;
      call.err := err;
    }

    /** Deletes the key from the table under the lock. */
    method Leave(key: Key)
      requires Valid()
      modifies this
      ensures Valid() && issued == old(issued)
      ensures View() == Remove(old(View()), key)
    {
      calls := calls - {key};
      table := table - {key};
    }

    /** Wakes every caller waiting on the call. */
    method Close(call: TokenCall, ghost id: CallId)
      requires Valid()
      requires id < |issued| && issued[id] == call
      modifies call
      ensures Valid()
      ensures View() == CloseCall(old(View()), id)
    {
      call.done := true;
    }
  }
}
