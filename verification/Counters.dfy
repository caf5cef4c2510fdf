/** The key counters of the status and metrics endpoints. */
module Counters {
  import opened KeyTypes
  import opened StoreModel
  import opened Storage
  import opened Concurrency

  function InState(records: seq<KeyRecord>, state: KeyState): nat {
    if records == [] then 0
    else InState(records[..|records| - 1], state) + if records[|records| - 1].state == state then 1 else 0
  }

  /** Counters for the `states` cover the list exactly when no record is in another state. */
  function Covered(records: seq<KeyRecord>, states: set<KeyState>): nat {
    if records == [] then 0
    else Covered(records[..|records| - 1], states) + if records[|records| - 1].state in states then 1 else 0
  }

  lemma {:induction false} CoveredIff(records: seq<KeyRecord>, states: set<KeyState>)
    ensures Covered(records, states) <= |records|
    ensures Covered(records, states) == |records| <==> forall r :: r in records ==> r.state in states
  {
    if records != [] {
      var front, last := records[..|records| - 1], records[|records| - 1];
      assert records == front + [last];
      CoveredIff(front, states);
    }
  }

  lemma {:induction false} StatusSum(records: seq<KeyRecord>)
    ensures Covered(records, {PRE_ACTIVE, ACTIVE, DEACTIVATED, COMPROMISED})
      == InState(records, PRE_ACTIVE) + InState(records, ACTIVE) + InState(records, DEACTIVATED) + InState(records, COMPROMISED)
    ensures Covered(records, {PRE_ACTIVE, ACTIVE, COMPROMISED})
      == InState(records, PRE_ACTIVE) + InState(records, ACTIVE) + InState(records, COMPROMISED)
  {
    if records != [] {
      StatusSum(records[..|records| - 1]);
    }
  }

  datatype Status = Status(total: nat, preActive: nat, active: nat, deactivated: nat, compromised: nat)

  /** The status loop counts four of the states. */
  method CountStatus(records: seq<KeyRecord>) returns (s: Status)
    ensures s.total == |records|
    ensures s.preActive == InState(records, PRE_ACTIVE) && s.active == InState(records, ACTIVE)
    ensures s.deactivated == InState(records, DEACTIVATED) && s.compromised == InState(records, COMPROMISED)
    ensures s.total == s.preActive + s.active + s.deactivated + s.compromised
      <==> forall r :: r in records ==> r.state in {PRE_ACTIVE, ACTIVE, DEACTIVATED, COMPROMISED}
  {
    s := Status(|records|, 0, 0, 0, 0);
    for i := 0 to |records|
      invariant s.total == |records|
      invariant s.preActive == InState(records[..i], PRE_ACTIVE) && s.active == InState(records[..i], ACTIVE)
      invariant s.deactivated == InState(records[..i], DEACTIVATED) && s.compromised == InState(records[..i], COMPROMISED)
    {
      assert records[..i + 1][..i] == records[..i];
      var state := records[i].state;
      if state == PRE_ACTIVE {
        s := s.(preActive := s.preActive + 1);
      } else if state == ACTIVE {
        s := s.(active := s.active + 1);
      } else if state == DEACTIVATED {
        s := s.(deactivated := s.deactivated + 1);
      } else if state == COMPROMISED {
        s := s.(compromised := s.compromised + 1);
      }
    }
    assert records[..|records|] == records;
    StatusSum(records);
    CoveredIff(records, {PRE_ACTIVE, ACTIVE, DEACTIVATED, COMPROMISED});
  }

  /** The metrics loop counts three. */
  method CountMetrics(records: seq<KeyRecord>) returns (total: nat, active: nat, revoked: nat, preActive: nat)
    ensures total == |records|
    ensures active == InState(records, ACTIVE) && revoked == InState(records, COMPROMISED) && preActive == InState(records, PRE_ACTIVE)
    ensures total == active + revoked + preActive <==> forall r :: r in records ==> r.state in {PRE_ACTIVE, ACTIVE, COMPROMISED}
  {
    total, active, revoked, preActive := |records|, 0, 0, 0;
    for i := 0 to |records|
      invariant active == InState(records[..i], ACTIVE) && revoked == InState(records[..i], COMPROMISED)
      invariant preActive == InState(records[..i], PRE_ACTIVE)
    {
      assert records[..i + 1][..i] == records[..i];
      var state := records[i].state;
      if state == ACTIVE {
        active := active + 1;
      } else if state == COMPROMISED {
        revoked := revoked + 1;
      } else if state == PRE_ACTIVE {
        preActive := preActive + 1;
      }
    }
    assert records[..|records|] == records;
    StatusSum(records);
    CoveredIff(records, {PRE_ACTIVE, ACTIVE, COMPROMISED});
  }

  /** Whatever KMIP and REST requests have run, and however they interleaved, no
      listed key escapes the counters: the total is the sum of three of them. */
  lemma CountersAddUp(su: Suite, acts: seq<Action>, states: seq<System>, n: nat, e: Env, records: seq<KeyRecord>)
    requires Trace(su, acts, states) && n <= |acts|
    requires Invoke(su, states[n].b, List, e).1 == Records(multiset(records))
    ensures |records| == InState(records, PRE_ACTIVE) + InState(records, ACTIVE) + InState(records, COMPROMISED)
    ensures InState(records, DEACTIVATED) == 0
  {
    forall r | r in records
      ensures r.state in {PRE_ACTIVE, ACTIVE, COMPROMISED}
    {
      assert r in multiset(records);
      ListedStates(su, acts, states, n, e, r);
    }
    StatusSum(records);
    CoveredIff(records, {PRE_ACTIVE, ACTIVE, COMPROMISED});
    CoveredIff(records, {PRE_ACTIVE, ACTIVE, DEACTIVATED, COMPROMISED});
  }
}
