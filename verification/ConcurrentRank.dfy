/** The lifecycle order with requests running at the same time, on either backend: a
    counterexample, and exactly which actions can break the order. */
module ConcurrentRank {
  import opened KeyTypes
  import opened StoreModel
  import opened Storage
  import opened Lifecycle
  import opened Concurrency
  import opened ConcurrentRecords

  /** The action runs Activate on a key that is already Compromised: a KMIP item whose
      check came before the Revoke, or an ungated REST call. */
  ghost predicate Reactivates(su: Suite, s: System, a: Action, r: KeyRecord) {
    Performs(su, s, a) == Some(Activate(r.uid)) && r.state == COMPROMISED
  }

  /** In every interleaving of KMIP and REST requests on either backend, a record is
      never lost, and an action takes it down in rank if and only if it reactivates it. */
  lemma RankDropsIffReactivated(su: Suite, acts: seq<Action>, states: seq<System>, i: nat, r: KeyRecord) returns (r': KeyRecord)
    requires Concurrency.Trace(su, acts, states) && i < |acts| && Holds(states[i].b, r)
    ensures Became(states[i + 1].b, r, r')
    ensures Rank(r'.state) < Rank(r.state) <==> Reactivates(su, states[i], acts[i], r)
  {
    TraceSound(su, acts, states, i);
    TraceUids(su, acts, states, i, acts[i].e.uid);
    assert Stepped(su, acts, states, i);
    assert Proper(r);
    r' := NextState(su, states[i], acts[i], r);
  }

  /** Without reactivations the lifecycle order survives every interleaving. */
  lemma {:induction false} RankRisesUnlessReactivated(su: Suite, acts: seq<Action>, states: seq<System>, i: nat, j: nat, r: KeyRecord)
      returns (r': KeyRecord)
    requires Concurrency.Trace(su, acts, states) && i <= j <= |acts| && Holds(states[i].b, r)
    requires forall k, q :: i <= k < j && Holds(states[k].b, q) && q.uid == r.uid ==> !Reactivates(su, states[k], acts[k], q)
    ensures Became(states[j].b, r, r') && Rank(r.state) <= Rank(r'.state)
  {
    if i == j {
      TraceSound(su, acts, states, i);
      Unmoved(states[i].b, r);
      r' := r;
    } else {
      var q := RankRisesUnlessReactivated(su, acts, states, i, j - 1, r);
      r' := RankDropsIffReactivated(su, acts, states, j - 1, q);
      assert !Reactivates(su, states[j - 1], acts[j - 1], q);
    }
  }
}
