/** Properties of the registry's operations: the invariant each preserves, the
    order in which each validates, and the bookkeeping of payments. */
module RegistryLemmas {
  import opened PledgeTypes
  import opened RegistrySpec

  // ---------------------------------------------------------------- the reference index

  /** An id is in the reference index exactly when it is a pledge below n in
      which `who` plays `role`. */
  lemma {:induction false} IdsWithMembers(pledges: map<int, Pledge>, n: nat, role: Role, who: string, x: int)
    ensures x in IdsWith(pledges, n, role, who) <==> 0 <= x < n && x in pledges && Party(pledges[x], role) == who
  {
    if n > 0 {
      IdsWithMembers(pledges, n - 1, role, who, x);
    }
  }

  /** The reference index lists ids in strictly increasing order, hence without repeats. */
  lemma {:induction false} IdsWithIncreasing(pledges: map<int, Pledge>, n: nat, role: Role, who: string)
    ensures Increasing(IdsWith(pledges, n, role, who))
  {
    if n > 0 {
      var ids := IdsWith(pledges, n, role, who);
      var prefix := IdsWith(pledges, n - 1, role, who);
      IdsWithIncreasing(pledges, n - 1, role, who);
      forall i | 0 <= i < |prefix|
        ensures prefix[i] < n - 1
      {
        IdsWithMembers(pledges, n - 1, role, who, prefix[i]);
      }
      assert ids == prefix + (if n - 1 in pledges && Party(pledges[n - 1], role) == who then [n - 1] else []);
      forall i, j | 0 <= i < j < |ids|
        ensures ids[i] < ids[j]
      {
        assert ids[i] == prefix[i];
        if j < |prefix| {
          assert ids[j] == prefix[j];
        } else {
          assert ids[j] == n - 1;
        }
      }
    }
  }

  /** The reference index below n depends only on which ids below n exist and
      on the party of each. */
  lemma {:induction false} IdsWithFrame(m1: map<int, Pledge>, m2: map<int, Pledge>, n: nat, role: Role, who: string)
    requires forall i :: 0 <= i < n ==> (i in m1 <==> i in m2)
    requires forall i :: 0 <= i < n && i in m1 && i in m2 ==> Party(m1[i], role) == Party(m2[i], role)
    ensures IdsWith(m1, n, role, who) == IdsWith(m2, n, role, who)
  {
    if n > 0 {
      IdsWithFrame(m1, m2, n - 1, role, who);
    }
  }

  /** Replacing one pledge by one with the same parties, and leaving the
      indexes alone, keeps the indexes equal to their reference definition. */
  lemma SamePartiesKeepIndexes(s: RegistryState, t: RegistryState, id: int)
    requires Inv(s) && id in s.pledges
    requires t.nextPledgeId == s.nextPledgeId
    requires t.pledgesByPatron == s.pledgesByPatron && t.pledgesByCreator == s.pledgesByCreator
    requires t.pledges.Keys == s.pledges.Keys
    requires t.pledges[id].patron == s.pledges[id].patron && t.pledges[id].creator == s.pledges[id].creator
    requires forall other :: other != id && other in s.pledges ==> t.pledges[other] == s.pledges[other]
    ensures forall role, who :: IndexOf(Index(t, role), who) == IdsWith(t.pledges, t.nextPledgeId, role, who)
  {
    forall role, who
      ensures IndexOf(Index(t, role), who) == IdsWith(t.pledges, t.nextPledgeId, role, who)
    {
      IdsWithFrame(t.pledges, s.pledges, s.nextPledgeId, role, who);
    }
  }

  /** In a valid registry each index holds exactly the ids of the pledges in
      which that party plays that role, each once and in creation order. */
  lemma IndexConsistent(s: RegistryState, role: Role, who: string)
    requires Inv(s)
    ensures var ids := IndexOf(Index(s, role), who);
      && (forall id :: id in ids <==> id in s.pledges && Party(s.pledges[id], role) == who)
      && Increasing(ids)
  {
    assert IndexOf(Index(s, role), who) == IdsWith(s.pledges, s.nextPledgeId, role, who);
    forall id
      ensures id in IndexOf(Index(s, role), who) <==> id in s.pledges && Party(s.pledges[id], role) == who
    {
      IdsWithMembers(s.pledges, s.nextPledgeId, role, who, id);
    }
    IdsWithIncreasing(s.pledges, s.nextPledgeId, role, who);
  }

  // ---------------------------------------------------------------- invariant

  /** A set holding exactly 0 .. n-1 has n elements. */
  lemma {:induction false} DenseKeysSize(keys: set<int>, n: nat)
    requires forall id :: id in keys <==> 0 <= id < n
    ensures |keys| == n
  {
    if n > 0 {
      var smaller := keys - {n - 1};
      DenseKeysSize(smaller, n - 1);
      assert keys == smaller + {n - 1};
    } else {
      forall id | id in keys
        ensures false
      {
      }
      assert keys == {};
    }
  }

  /** getPledgeCount counts every pledge ever stored, cancelled ones included. */
  lemma PledgeCountIsSize(s: RegistryState)
    requires Inv(s)
    ensures GetPledgeCount(s) == Ok(|s.pledges|)
    ensures forall id :: GetPledge(s, id).Some? <==> 0 <= id < GetPledgeCount(s).value
  {
    DenseKeysSize(s.pledges.Keys, s.nextPledgeId);
  }

  lemma InitialInv()
    ensures Inv(Initial())
  {
  }

  lemma {:induction false} CreatePreservesInv(s: RegistryState, caller: string, height: int, q: PledgeRequest)
    requires Inv(s)
    ensures Inv(Create(s, caller, height, q).post)
  {
    var r := Create(s, caller, height, q);
    if r.result.Ok? {
      var t := r.post;
      var n := s.nextPledgeId;
      forall role, who
        ensures IndexOf(Index(t, role), who) == IdsWith(t.pledges, t.nextPledgeId, role, who)
      {
        IdsWithFrame(t.pledges, s.pledges, n, role, who);
      }
    }
  }

  lemma {:induction false} UpdatePreservesInv(s: RegistryState, caller: string, height: int, id: int,
                                              newAmount: int, newInterval: int, newDuration: int)
    requires Inv(s)
    ensures Inv(Update(s, caller, height, id, newAmount, newInterval, newDuration).post)
  {
    var r := Update(s, caller, height, id, newAmount, newInterval, newDuration);
    if r.result.Ok? {
      SamePartiesKeepIndexes(s, r.post, id);
    }
  }

  lemma {:induction false} CancelPreservesInv(s: RegistryState, caller: string, id: int)
    requires Inv(s)
    ensures Inv(Cancel(s, caller, id).post)
  {
    var r := Cancel(s, caller, id);
    if r.result.Ok? {
      SamePartiesKeepIndexes(s, r.post, id);
    }
  }

  lemma {:induction false} PaymentPreservesInv(s: RegistryState, height: int, id: int)
    requires Inv(s)
    ensures Inv(ExecutePayment(s, height, id).post)
  {
    var r := ExecutePayment(s, height, id);
    if r.result.Ok? {
      SamePartiesKeepIndexes(s, r.post, id);
    }
  }

  // ---------------------------------------------------------------- validation order

  /** createPledge returns the error of the first broken creation rule, and
      succeeds, returning the prior pledge count, exactly when none is broken. */
  lemma CreateFollowsRules(s: RegistryState, caller: string, height: int, q: PledgeRequest)
    ensures Create(s, caller, height, q).result == Decide(Verdict(CreateRules(s, caller, height, q)), s.nextPledgeId)
  {
    var r0 := CreateRules(s, caller, height, q);
    if !r0.holds { return; }
    var r1 := r0.rest;  assert Verdict(r0) == Verdict(r1);
    if !r1.holds { return; }
    var r2 := r1.rest;  assert Verdict(r1) == Verdict(r2);
    if !r2.holds { return; }
    var r3 := r2.rest;  assert Verdict(r2) == Verdict(r3);
    if !r3.holds { return; }
    var r4 := r3.rest;  assert Verdict(r3) == Verdict(r4);
    if !r4.holds { return; }
    var r5 := r4.rest;  assert Verdict(r4) == Verdict(r5);
    if !r5.holds { return; }
    var r6 := r5.rest;  assert Verdict(r5) == Verdict(r6);
    if !r6.holds { return; }
    var r7 := r6.rest;  assert Verdict(r6) == Verdict(r7);
    if !r7.holds { return; }
    var r8 := r7.rest;  assert Verdict(r7) == Verdict(r8);
    if !r8.holds { return; }
    var r9 := r8.rest;  assert Verdict(r8) == Verdict(r9);
    if !r9.holds { return; }
    var r10 := r9.rest;  assert Verdict(r9) == Verdict(r10);
    if !r10.holds { return; }
    assert Verdict(r10) == Verdict(r10.rest);
  }

  /** updatePledge returns the error of the first broken update rule. */
  lemma UpdateFollowsRules(s: RegistryState, caller: string, height: int, id: int,
                           newAmount: int, newInterval: int, newDuration: int)
    ensures Update(s, caller, height, id, newAmount, newInterval, newDuration).result
         == Decide(Verdict(UpdateRules(s, caller, id, newAmount, newInterval, newDuration)), true)
  {
    var r0 := UpdateRules(s, caller, id, newAmount, newInterval, newDuration);
    if !r0.holds || id !in s.pledges { return; }
    var r1 := r0.rest;  assert Verdict(r0) == Verdict(r1);
    if !r1.holds { return; }
    var r2 := r1.rest;  assert Verdict(r1) == Verdict(r2);
    if !r2.holds { return; }
    var r3 := r2.rest;  assert Verdict(r2) == Verdict(r3);
    if !r3.holds { return; }
    var r4 := r3.rest;  assert Verdict(r3) == Verdict(r4);
    if !r4.holds { return; }
    assert Verdict(r4) == Verdict(r4.rest);
  }

  /** cancelPledge returns the error of the first broken cancellation rule. */
  lemma CancelFollowsRules(s: RegistryState, caller: string, id: int)
    ensures Cancel(s, caller, id).result == Decide(Verdict(CancelRules(s, caller, id)), true)
  {
  }

  /** executePayment returns the error of the first broken payment rule; being
      early and having used up the quota both give PaymentNotDue. */
  lemma PaymentFollowsRules(s: RegistryState, height: int, id: int)
    ensures ExecutePayment(s, height, id).result == Decide(Verdict(PaymentRules(s, height, id)), true)
  {
    var r0 := PaymentRules(s, height, id);
    if !r0.holds || id !in s.pledges { return; }
    var r1 := r0.rest;  assert Verdict(r0) == Verdict(r1);
    if !r1.holds { return; }
    var r2 := r1.rest;  assert Verdict(r1) == Verdict(r2);
    if !r2.holds { return; }
    var r3 := r2.rest;  assert Verdict(r2) == Verdict(r3);
    if !r3.holds { return; }
    assert Verdict(r3) == Verdict(r3.rest);
  }

  // ---------------------------------------------------------------- creation

  /** Below capacity, a pledge to oneself is always refused as InvalidCreator. */
  lemma SelfPledgeRefused(s: RegistryState, caller: string, height: int, q: PledgeRequest)
    requires s.nextPledgeId < s.maxPledges && q.creator == caller
    ensures Create(s, caller, height, q).result == Err(InvalidCreator)
  {
  }

  /** At capacity every creation is refused as MaxPledgesExceeded, whoever
      calls and whatever it asks for, and nothing changes. */
  lemma AtCapacityRefuses(s: RegistryState, caller: string, height: int, q: PledgeRequest)
    requires s.nextPledgeId >= s.maxPledges
    ensures Create(s, caller, height, q).result == Err(MaxPledgesExceeded)
    ensures Create(s, caller, height, q).post == s
  {
  }

  /** With a capacity of one, the creation after a successful one is refused
      as MaxPledgesExceeded. */
  lemma CapacityOfOne(s: RegistryState, caller: string, height: int, q1: PledgeRequest, caller2: string, height2: int, q2: PledgeRequest)
    requires s.maxPledges == 1
    requires Create(s, caller, height, q1).result.Ok?
    ensures Create(Create(s, caller, height, q1).post, caller2, height2, q2).result == Err(MaxPledgesExceeded)
  {
  }

  /** The id a creation returns is the pledge count before it, and the count grows by one. */
  lemma CreateCountsUp(s: RegistryState, caller: string, height: int, q: PledgeRequest)
    requires Inv(s)
    requires Create(s, caller, height, q).result.Ok?
    ensures var r := Create(s, caller, height, q);
      && r.result.value == GetPledgeCount(s).value
      && GetPledgeCount(r.post).value == GetPledgeCount(s).value + 1
      && r.result.value !in s.pledges
      && GetPledge(r.post, r.result.value) == Some(NewPledge(caller, q))
  {
  }

  // ---------------------------------------------------------------- cancellation and payment

  /** A cancelled pledge can be neither updated nor paid: the patron's update
      and any payment attempt fail with PledgeInactive. */
  lemma InactiveRefusesAll(s: RegistryState, id: int, caller: string, height: int,
                           newAmount: int, newInterval: int, newDuration: int)
    requires id in s.pledges && !s.pledges[id].active
    ensures Update(s, caller, height, id, newAmount, newInterval, newDuration).result.Err?
    ensures caller == s.pledges[id].patron ==>
      Update(s, caller, height, id, newAmount, newInterval, newDuration).result == Err(PledgeInactive)
    ensures ExecutePayment(s, height, id).result == Err(PledgeInactive)
    ensures Cancel(s, caller, id).result.Err?
  {
  }

  /** After a successful payment a second one at the same height is not due,
      and the last payment height has strictly increased. */
  lemma NoSecondPaymentAtSameHeight(s: RegistryState, height: int, id: int)
    requires Inv(s)
    requires ExecutePayment(s, height, id).result.Ok?
    ensures var t := ExecutePayment(s, height, id).post;
      && t.pledges[id].lastPaymentBlock > s.pledges[id].lastPaymentBlock
      && ExecutePayment(t, height, id).result == Err(PaymentNotDue)
  {
  }

  /** Payments made never exceed the pledge's duration through payment: once
      the quota is used up, every further attempt is refused. */
  lemma QuotaExhaustedRefuses(s: RegistryState, height: int, id: int)
    requires id in s.pledges && s.pledges[id].active
    requires s.pledges[id].paymentsMade >= s.pledges[id].duration
    ensures ExecutePayment(s, height, id).result == Err(PaymentNotDue)
  {
  }
}
