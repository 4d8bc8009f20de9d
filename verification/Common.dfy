/** Values every part of the engine shares: optional values, fallible results and
    the problem ids an operation can fail with. */
module Common {

  datatype Option<+T> = None | Some(value: T)

  /** The engine's problem-typed failures, by id. `Upstream` is an error a seam
      returned that the engine hands on unchanged. */
  datatype Problem =
    | ConfigInvalid
    | ProviderUnavailable
    | ResourceUnregistered
    | TokenClaimMissing
    | TokenExpired
    | RefreshTokenUnknown
    | RefreshTokenReused
    | DeferredTokenUnknown
    | DeferredTokenConsumed
    | DeferredTokenExpired
    | OnboardingStalled
    | HomeLandscapeUnresolved
    | Upstream(cause: string)

  datatype Result<+T> = Ok(value: T) | Err(error: Problem)

  /** A point on the injected clock, and a distance between two of them. */
  type Instant = int
  type Duration = int

  /** A collision-free hash: distinct inputs have distinct digests, and only the
      digest is ever stored. */
  datatype Digest = Digest(of: string)

  /** Pops the next scripted outcome of a fake's error queue; an empty queue means success. */
  function NextFault(queue: seq<Option<string>>): Option<string> {
    if queue == [] then None else queue[0]
  }

  function RestFaults(queue: seq<Option<string>>): seq<Option<string>> {
    if queue == [] then [] else queue[1..]
  }

  /** A queue scripts one operation after another, oldest first; None scripts a success. */
  lemma FaultsComeInOrder(fault: Option<string>, queue: seq<Option<string>>)
    ensures NextFault([fault] + queue) == fault && RestFaults([fault] + queue) == queue
    ensures NextFault([]) == None && RestFaults([]) == []
  {
    assert ([fault] + queue)[1..] == queue;
  }

  lemma SubsetSize<T>(small: set<T>, big: set<T>)
    requires small <= big
    ensures |small| <= |big|
  {
    assert big == small + (big - small);
  }

  lemma InitAndLast<T>(s: seq<T>)
    requires s != []
    ensures s == s[..|s| - 1] + [s[|s| - 1]]
  {
  }

  lemma Regrouped<T>(a: seq<T>, b: seq<T>, c: seq<T>)
    ensures a + (b + c) == (a + b) + c
  {
  }

  lemma HeadAndTail<T>(first: seq<T>, rest: seq<T>)
    requires first != []
    ensures (first + rest)[0] == first[0] && (first + rest)[1..] == first[1..] + rest
  {
  }

  /** Indices of distinct elements are no more than the elements they can name. */
  lemma {:induction false} DistinctSize(s: seq<nat>, indices: set<nat>, targets: set<nat>)
    requires forall i, j :: 0 <= i < j < |s| ==> s[i] != s[j]
    requires forall i :: i in indices ==> i < |s| && s[i] in targets
    ensures |indices| <= |targets|
  {
    if indices != {} {
      var i :| i in indices;
      DistinctSize(s, indices - {i}, targets - {s[i]});
    }
  }
}
