/** The pledge manager as an object whose methods update its fields in place.
    Each method is proved to leave the object in the state, and to return the
    result, that the matching function of RegistrySpec gives; the properties
    proved about those functions therefore hold of the object. The caller and
    the current block height are passed to each call. */
module PledgeManager {
  import opened PledgeTypes
  import S = RegistrySpec
  import L = RegistryLemmas

  class PledgeRegistry {
    var nextPledgeId: nat
    var maxPledges: int
    var minAmount: int
    var defaultInterval: int
    var escrowContract: Option<string>
    var authorityContract: Option<string>
    var pledges: map<int, Pledge>
    var pledgeUpdates: map<int, PledgeUpdate>
    var pledgesByPatron: map<string, seq<int>>
    var pledgesByCreator: map<string, seq<int>>
    var stxTransfers: seq<Transfer>

    /** The registry value the fields hold. */
    ghost function State(): S.RegistryState
      reads this
    {
      S.RegistryState(nextPledgeId, maxPledges, minAmount, defaultInterval,
                      escrowContract, authorityContract, pledges, pledgeUpdates,
                      pledgesByPatron, pledgesByCreator, stxTransfers)
    }

    ghost predicate Valid()
      reads this
    {
      S.Inv(State())
    }

    constructor ()
      ensures Valid() && State() == S.Initial()
    {
      nextPledgeId := 0;
      maxPledges := DefaultMaxPledges;
      minAmount := DefaultMinAmount;
      defaultInterval := DefaultInterval;
      escrowContract := None;
      authorityContract := None;
      pledges := map[];
      pledgeUpdates := map[];
      pledgesByPatron := map[];
      pledgesByCreator := map[];
      stxTransfers := [];
      new;
      L.InitialInv();
    }

    method SetEscrowContract(contractPrincipal: string) returns (r: Result<bool>)
      requires Valid()
      modifies this
      ensures Valid()
      ensures State() == S.SetEscrowContract(old(State()), contractPrincipal).post
      ensures r == S.SetEscrowContract(old(State()), contractPrincipal).result
    {
      escrowContract := Some(contractPrincipal);
      return Ok(true);
    }

    method SetAuthorityContract(contractPrincipal: string) returns (r: Result<bool>)
      requires Valid()
      modifies this
      ensures Valid()
      ensures State() == S.SetAuthorityContract(old(State()), contractPrincipal).post
      ensures r == S.SetAuthorityContract(old(State()), contractPrincipal).result
    {
      authorityContract := Some(contractPrincipal);
      return Ok(true);
    }

    method SetMinAmount(newMin: int) returns (r: Result<bool>)
      requires Valid()
      modifies this
      ensures Valid()
      ensures State() == S.SetMinAmount(old(State()), newMin).post
      ensures r == S.SetMinAmount(old(State()), newMin).result
    {
      if !IsSet(authorityContract) {
        return Err(AuthorityNotVerified);
      }
      minAmount := newMin;
      return Ok(true);
    }

    method CreatePledge(caller: string, blockHeight: int,
                        creator: string, amount: int, interval: int, startBlock: int, duration: int,
                        currency: string, gracePeriod: int, penaltyRate: int, perkThreshold: int)
      returns (r: Result<int>)
      requires Valid()
      modifies this
      ensures Valid()
      ensures var q := S.PledgeRequest(creator, amount, interval, startBlock, duration, currency, gracePeriod, penaltyRate, perkThreshold);
        && State() == S.Create(old(State()), caller, blockHeight, q).post
        && r == S.Create(old(State()), caller, blockHeight, q).result
    {
      ghost var q := S.PledgeRequest(creator, amount, interval, startBlock, duration, currency, gracePeriod, penaltyRate, perkThreshold);
      L.CreatePreservesInv(State(), caller, blockHeight, q);
      if nextPledgeId >= maxPledges { return Err(MaxPledgesExceeded); }
      if creator == caller { return Err(InvalidCreator); }
      if amount < minAmount { return Err(InvalidAmount); }
      if interval <= 0 { return Err(InvalidInterval); }
      if duration <= 0 { return Err(InvalidDuration); }
      if startBlock < blockHeight { return Err(InvalidStartBlock); }
      if currency !in Currencies { return Err(InvalidCurrency); }
      if gracePeriod > MaxGracePeriod { return Err(InvalidGracePeriod); }
      if penaltyRate > MaxPenaltyRate { return Err(InvalidPenalty); }
      if perkThreshold <= 0 { return Err(InvalidPerkThreshold); }
      if !IsSet(escrowContract) { return Err(EscrowNotSet); }

      var id := nextPledgeId;
      var pledge := Pledge(caller, creator, amount, interval, startBlock, duration,
                           0, startBlock, true, currency, gracePeriod, penaltyRate, perkThreshold);
      pledges := pledges[id := pledge];
      var patronPledges := S.IndexOf(pledgesByPatron, caller);
      pledgesByPatron := pledgesByPatron[caller := patronPledges + [id]];
      var creatorPledges := S.IndexOf(pledgesByCreator, creator);
      pledgesByCreator := pledgesByCreator[creator := creatorPledges + [id]];
      nextPledgeId := nextPledgeId + 1;
      return Ok(id);
    }

    function GetPledge(id: int): (r: Option<Pledge>)
      reads this
      requires Valid()
      ensures r.Some? <==> 0 <= id < nextPledgeId
      ensures r.Some? ==> r.value == pledges[id]
    {
      if id in pledges then Some(pledges[id]) else None
    }

    method UpdatePledge(caller: string, blockHeight: int, id: int,
                        newAmount: int, newInterval: int, newDuration: int)
      returns (r: Result<bool>)
      requires Valid()
      modifies this
      ensures Valid()
      ensures State() == S.Update(old(State()), caller, blockHeight, id, newAmount, newInterval, newDuration).post
      ensures r == S.Update(old(State()), caller, blockHeight, id, newAmount, newInterval, newDuration).result
    {
      L.UpdatePreservesInv(State(), caller, blockHeight, id, newAmount, newInterval, newDuration);
      if id !in pledges { return Err(PledgeNotFound); }
      var pledge := pledges[id];
      if pledge.patron != caller { return Err(NotAuthorized); }
      if !pledge.active { return Err(PledgeInactive); }
      if newAmount < minAmount { return Err(InvalidAmount); }
      if newInterval <= 0 { return Err(InvalidInterval); }
      if newDuration <= 0 { return Err(InvalidDuration); }

      var updated := pledge.(amount := newAmount, interval := newInterval, duration := newDuration);
      pledges := pledges[id := updated];
      pledgeUpdates := pledgeUpdates[id := PledgeUpdate(newAmount, newInterval, newDuration, blockHeight, caller)];
      return Ok(true);
    }

    method CancelPledge(caller: string, id: int) returns (r: Result<bool>)
      requires Valid()
      modifies this
      ensures Valid()
      ensures State() == S.Cancel(old(State()), caller, id).post
      ensures r == S.Cancel(old(State()), caller, id).result
    {
      L.CancelPreservesInv(State(), caller, id);
      if id !in pledges { return Err(PledgeNotFound); }
      var pledge := pledges[id];
      if pledge.patron != caller { return Err(NotAuthorized); }
      if !pledge.active { return Err(PledgeInactive); }

      pledges := pledges[id := pledge.(active := false)];
      return Ok(true);
    }

    method ExecutePayment(blockHeight: int, id: int) returns (r: Result<bool>)
      requires Valid()
      modifies this
      ensures Valid()
      ensures State() == S.ExecutePayment(old(State()), blockHeight, id).post
      ensures r == S.ExecutePayment(old(State()), blockHeight, id).result
    {
      L.PaymentPreservesInv(State(), blockHeight, id);
      if id !in pledges { return Err(PledgeNotFound); }
      var pledge := pledges[id];
      if !pledge.active { return Err(PledgeInactive); }
      var nextDue := pledge.lastPaymentBlock + pledge.interval;
      if blockHeight < nextDue { return Err(PaymentNotDue); }
      if pledge.paymentsMade >= pledge.duration { return Err(PaymentNotDue); }
      if !IsSet(escrowContract) { return Err(EscrowNotSet); }

      stxTransfers := stxTransfers + [Transfer(pledge.amount, escrowContract.value, pledge.creator)];
      var updated := pledge.(paymentsMade := pledge.paymentsMade + 1, lastPaymentBlock := blockHeight);
      pledges := pledges[id := updated];
      return Ok(true);
    }

    /** The number of pledges ever created, cancelled ones included. */
    function GetPledgeCount(): (r: Result<nat>)
      reads this
      requires Valid()
      ensures r == Ok(|pledges|)
    {
      L.PledgeCountIsSize(State());
      Ok(nextPledgeId)
    }
  }
}
