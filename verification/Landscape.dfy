/** The home-landscape selector: the pre-onboarding phase of a caller with no home claim. */
module Landscapes {
  import opened Common

  datatype Landscape = Landscape(name: string, display: string, region: string, healthy: bool)

  /** What each candidate answers a ping with, by position: its latency, or nothing. */
  type Latencies = seq<Option<Duration>>

  /** The candidate is healthy and answered its ping. */
  predicate Reached(candidates: seq<Landscape>, latencies: Latencies, i: nat)
    requires |latencies| == |candidates|
  {
    i < |candidates| && candidates[i].healthy && latencies[i].Some?
  }

  /** The first of the candidates with the lowest latency among those reached. */
  ghost predicate Nearest(candidates: seq<Landscape>, latencies: Latencies, i: nat)
    requires |latencies| == |candidates|
  {
    && Reached(candidates, latencies, i)
    && (forall j: nat :: Reached(candidates, latencies, j) ==> latencies[i].value <= latencies[j].value)
    && (forall j: nat :: j < i && Reached(candidates, latencies, j) ==> latencies[i].value < latencies[j].value)
  }

  /** There is only one to pick. */
  lemma NearestIsUnique(candidates: seq<Landscape>, latencies: Latencies, i: nat, j: nat)
    requires |latencies| == |candidates|
    requires Nearest(candidates, latencies, i) && Nearest(candidates, latencies, j)
    ensures i == j
  {
  }

  /** The healthy ones in declared order. */
  function Healthy(candidates: seq<Landscape>): (healthy: seq<Landscape>) {
    if candidates == [] then []
    else
      var last := candidates[|candidates| - 1];
      Healthy(candidates[..|candidates| - 1]) + if last.healthy then [last] else []
  }

  lemma HealthyOneMore(candidates: seq<Landscape>, i: nat)
    requires i < |candidates|
    ensures Healthy(candidates[..i + 1]) ==
      Healthy(candidates[..i]) + if candidates[i].healthy then [candidates[i]] else []
  {
    assert candidates[..i + 1][..i] == candidates[..i];
  }

  /** Each healthy candidate is there as often as it is declared, and no unhealthy one is. */
  lemma {:induction false} HealthyOnceEach(candidates: seq<Landscape>, one: Landscape)
    ensures multiset(Healthy(candidates))[one] == if one.healthy then multiset(candidates)[one] else 0
  {
    if candidates != [] {
      var last := |candidates| - 1;
      HealthyOnceEach(candidates[..last], one);
      assert candidates == candidates[..last] + [candidates[last]];
    }
  }

  /** And they are in declared order: those of one list, then those of the next. */
  lemma {:induction false} HealthyInOrder(candidates: seq<Landscape>, more: seq<Landscape>)
    ensures Healthy(candidates + more) == Healthy(candidates) + Healthy(more)
    decreases |more|
  {
    if more == [] {
      assert candidates + more == candidates;
    } else {
      var init, last := more[..|more| - 1], more[|more| - 1];
      InitAndLast(more);
      Regrouped(candidates, init, [last]);
      HealthyInOrder(candidates, init);
      HealthyAndOne(candidates + init, last);
      HealthyAndOne(init, last);
      Regrouped(Healthy(candidates), Healthy(init), if last.healthy then [last] else []);
    }
  }

  /** One candidate more is there at the end exactly when it is healthy. */
  lemma HealthyAndOne(candidates: seq<Landscape>, one: Landscape)
    ensures Healthy(candidates + [one]) == Healthy(candidates) + if one.healthy then [one] else []
  {
    assert (candidates + [one])[..|candidates|] == candidates;
  }

  /** The first candidate declared under the name. */
  ghost predicate DeclaredAt(candidates: seq<Landscape>, name: string, i: nat) {
    i < |candidates| && candidates[i].name == name && forall j :: 0 <= j < i ==> candidates[j].name != name
  }

  ghost predicate Undeclared(candidates: seq<Landscape>, name: string) {
    forall i :: 0 <= i < |candidates| ==> candidates[i].name != name
  }

  function Find(candidates: seq<Landscape>, name: string): (found: Option<Landscape>)
    ensures found.None? ==> Undeclared(candidates, name)
    ensures found.Some? ==> exists i: nat :: DeclaredAt(candidates, name, i) && found.value == candidates[i]
  {
    if candidates == [] then None
    else if candidates[0].name == name then
      assert DeclaredAt(candidates, name, 0);
      Some(candidates[0])
    else
      var rest := Find(candidates[1..], name);
      assert rest.Some? ==> exists i: nat :: DeclaredAt(candidates, name, i) && rest.value == candidates[i] by {
        if rest.Some? {
          var i: nat :| DeclaredAt(candidates[1..], name, i) && rest.value == candidates[1..][i];
          assert forall j :: 0 < j <= i ==> candidates[j] == candidates[1..][j - 1];
          assert DeclaredAt(candidates, name, i + 1) && rest.value == candidates[i + 1];
        }
      }
      assert rest.None? ==> forall j :: 0 < j < |candidates| ==> candidates[j] == candidates[1..][j - 1];
      rest
  }

  class Selector {
    // The landscapes pinged so far, oldest first.
    var pings: seq<Landscape>

    constructor ()
      ensures pings == []
    {
      pings := [];
    }

    /** The healthy candidate with the lowest latency, the first of equals; a candidate that does
        not answer is skipped, and only when none answers does this fail. */
    method Pick(candidates: seq<Landscape>, latencies: Latencies) returns (answer: Result<Landscape>)
      requires |latencies| == |candidates|
      modifies this
      ensures pings == old(pings) + Healthy(candidates)
      ensures answer.Ok? ==> exists i: nat :: Nearest(candidates, latencies, i) && answer.value == candidates[i]
      ensures forall i: nat :: Nearest(candidates, latencies, i) ==> answer == Ok(candidates[i])
      ensures answer.Err? ==> answer.error == HomeLandscapeUnresolved
      ensures answer.Err? <==> forall i: nat :: !Reached(candidates, latencies, i)
    {
      var chosen := Landscape("", "", "", false);
      var best: Duration, reached := 0, false;
      ghost var at: nat := 0;
      for i := 0 to |candidates|
        invariant pings == old(pings) + Healthy(candidates[..i])
        invariant reached ==> at < i && Reached(candidates, latencies, at)
        invariant reached ==> chosen == candidates[at] && best == latencies[at].value
        invariant reached ==> forall j: nat :: j < i && Reached(candidates, latencies, j) ==> best <= latencies[j].value
        invariant reached ==> forall j: nat :: j < at && Reached(candidates, latencies, j) ==> best < latencies[j].value
        invariant !reached ==> forall j: nat :: j < i ==> !Reached(candidates, latencies, j)
      {
        HealthyOneMore(candidates, i);
        if !candidates[i].healthy {
          continue;
        }
        pings := pings + [candidates[i]];
        if latencies[i].None? {
          continue;
        }
        if !reached || latencies[i].value < best {
          chosen, best, reached, at := candidates[i], latencies[i].value, true, i;
        }
      }
      assert candidates[..|candidates|] == candidates;
      if !reached {
        return Err(HomeLandscapeUnresolved);
      }
      forall i: nat | Nearest(candidates, latencies, i) ensures i == at {
        NearestIsUnique(candidates, latencies, i, at);
      }
      return Ok(chosen);
    }

    /** The home landscape a caller's claim names, declared or not; only without a claim is anyone pinged. */
    method Home(claim: Option<string>, candidates: seq<Landscape>, latencies: Latencies) returns (answer: Result<Landscape>)
      requires |latencies| == |candidates|
      modifies this
      ensures claim.Some? ==>
        && pings == old(pings) && answer.Ok? && answer.value.name == claim.value
        && (Undeclared(candidates, claim.value) ==> answer.value == Landscape(claim.value, "", "", true))
        && (!Undeclared(candidates, claim.value) ==>
              exists i: nat :: DeclaredAt(candidates, claim.value, i) && answer.value == candidates[i])
      ensures claim.None? ==>
        && pings == old(pings) + Healthy(candidates)
        && (answer.Ok? ==> exists i: nat :: Nearest(candidates, latencies, i) && answer.value == candidates[i])
        && (forall i: nat :: Nearest(candidates, latencies, i) ==> answer == Ok(candidates[i]))
        && (answer.Err? ==> answer.error == HomeLandscapeUnresolved)
        && (answer.Err? <==> forall i: nat :: !Reached(candidates, latencies, i))
    {
      if claim.Some? {
        var declared := Find(candidates, claim.value);
        if declared.Some? {
          return Ok(declared.value);
        }
        return Ok(Landscape(claim.value, "", "", true));
      }
      answer := Pick(candidates, latencies);
    }
  }
}
