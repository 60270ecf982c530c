/** The pledge registry as a value and each of its operations as a function
    from the state before the call to the state after it and the call's result.
    The caller identity and the block height are inputs of each call. */
module RegistrySpec {
  import opened PledgeTypes

  datatype RegistryState = RegistryState(
    nextPledgeId: nat,
    maxPledges: int,
    minAmount: int,
    defaultInterval: int,
    escrowContract: Option<string>,
    authorityContract: Option<string>,
    pledges: map<int, Pledge>,
    pledgeUpdates: map<int, PledgeUpdate>,
    pledgesByPatron: map<string, seq<int>>,
    pledgesByCreator: map<string, seq<int>>,
    stxTransfers: seq<Transfer>)

  /** The state after a call and what the call returned. */
  datatype Outcome<T> = Outcome(post: RegistryState, result: Result<T>)

  /** The arguments of createPledge other than the caller. */
  datatype PledgeRequest = PledgeRequest(
    creator: string,
    amount: int,
    interval: int,
    startBlock: int,
    duration: int,
    currency: string,
    gracePeriod: int,
    penaltyRate: int,
    perkThreshold: int)

  function Initial(): (s: RegistryState)
    ensures s.nextPledgeId == 0 && s.pledges == map[] && s.stxTransfers == []
    ensures !IsSet(s.escrowContract) && !IsSet(s.authorityContract)
    ensures s.maxPledges == 10000 && s.minAmount == 10
  {
    RegistryState(0, DefaultMaxPledges, DefaultMinAmount, DefaultInterval, None, None,
                  map[], map[], map[], map[], [])
  }

  /** The ids an index holds for one party; a party never indexed has none. */
  function IndexOf(index: map<string, seq<int>>, who: string): seq<int>
  {
    if who in index then index[who] else []
  }

  function Index(s: RegistryState, role: Role): map<string, seq<int>>
  {
    match role
    case Patron => s.pledgesByPatron
    case Creator => s.pledgesByCreator
  }

  /** The index after id is added at the end of who's list. */
  function Append(index: map<string, seq<int>>, who: string, id: int): (r: map<string, seq<int>>)
    ensures IndexOf(r, who) == IndexOf(index, who) + [id]
    ensures forall other :: other != who ==> IndexOf(r, other) == IndexOf(index, other)
  {
    index[who := IndexOf(index, who) + [id]]
  }

  /** The reference definition of an index: the ids below n, in increasing
      order, of the pledges in which `who` plays `role`. */
  function IdsWith(pledges: map<int, Pledge>, n: nat, role: Role, who: string): seq<int>
  {
    if n == 0 then []
    else
      IdsWith(pledges, n - 1, role, who) +
      (if n - 1 in pledges && Party(pledges[n - 1], role) == who then [n - 1] else [])
  }

  /** Strictly increasing, hence also free of repeats. */
  ghost predicate Increasing(ids: seq<int>)
  {
    forall i, j :: 0 <= i < j < |ids| ==> ids[i] < ids[j]
  }

  /** What holds of every stored pledge. */
  ghost predicate WellFormed(p: Pledge)
  {
    && p.patron != p.creator
    && p.interval > 0
    && p.duration > 0
    && p.startBlock <= p.lastPaymentBlock
  }

  /** An update record agrees with the terms and the patron of its pledge. */
  ghost predicate Reflects(u: PledgeUpdate, p: Pledge)
  {
    && u.updateAmount == p.amount
    && u.updateInterval == p.interval
    && u.updateDuration == p.duration
    && u.updater == p.patron
  }

  /** The registry invariant: ids are exactly 0 .. nextPledgeId-1, every pledge
      is well formed, every update record reflects its pledge, and both indexes
      equal their reference definition. */
  ghost predicate Inv(s: RegistryState)
  {
    && (forall id :: id in s.pledges <==> 0 <= id < s.nextPledgeId)
    && (forall id :: id in s.pledges ==> WellFormed(s.pledges[id]))
    && (forall id :: id in s.pledgeUpdates ==> id in s.pledges && Reflects(s.pledgeUpdates[id], s.pledges[id]))
    && (forall role, who :: IndexOf(Index(s, role), who) == IdsWith(s.pledges, s.nextPledgeId, role, who))
  }

  // ---------------------------------------------------------------- configuration

  function SetEscrowContract(s: RegistryState, contractPrincipal: string): (r: Outcome<bool>)
    ensures r.result == Ok(true)
    ensures r.post.escrowContract == Some(contractPrincipal)
    ensures IsSet(r.post.escrowContract) <==> contractPrincipal != ""
    ensures r.post.(escrowContract := s.escrowContract) == s
  {
    Outcome(s.(escrowContract := Some(contractPrincipal)), Ok(true))
  }

  function SetAuthorityContract(s: RegistryState, contractPrincipal: string): (r: Outcome<bool>)
    ensures r.result == Ok(true)
    ensures r.post.authorityContract == Some(contractPrincipal)
    ensures IsSet(r.post.authorityContract) <==> contractPrincipal != ""
    ensures r.post.(authorityContract := s.authorityContract) == s
  {
    Outcome(s.(authorityContract := Some(contractPrincipal)), Ok(true))
  }

  /** Only the presence of an authority is checked, not who the caller is. */
  function SetMinAmount(s: RegistryState, newMin: int): (r: Outcome<bool>)
    ensures r.result.Ok? <==> IsSet(s.authorityContract)
    ensures r.result.Ok? ==> r.result.value && r.post.minAmount == newMin
    ensures r.result.Err? ==> r.result.error == AuthorityNotVerified && r.post == s
    ensures r.post.(minAmount := s.minAmount) == s
  {
    if !IsSet(s.authorityContract) then Outcome(s, Err(AuthorityNotVerified))
    else Outcome(s.(minAmount := newMin), Ok(true))
  }

  // ---------------------------------------------------------------- createPledge

  /** The pledge a successful creation stores. */
  function NewPledge(caller: string, q: PledgeRequest): Pledge
  {
    Pledge(caller, q.creator, q.amount, q.interval, q.startBlock, q.duration,
           0, q.startBlock, true, q.currency, q.gracePeriod, q.penaltyRate, q.perkThreshold)
  }

  function Create(s: RegistryState, caller: string, height: int, q: PledgeRequest): (r: Outcome<int>)
    ensures r.result.Err? ==> r.post == s
    ensures q.creator == caller ==> r.result.Err?
    ensures r.result.Ok? ==>
      var id := s.nextPledgeId;
      && r.result.value == id
      && r.post.nextPledgeId == id + 1
      && id in r.post.pledges
      && var p := r.post.pledges[id];
      && p.patron == caller && p.creator == q.creator
      && p.amount == q.amount && p.interval == q.interval && p.duration == q.duration
      && p.startBlock == q.startBlock && p.lastPaymentBlock == q.startBlock
      && p.paymentsMade == 0 && p.active
      && p.currency == q.currency && p.gracePeriod == q.gracePeriod
      && p.penaltyRate == q.penaltyRate && p.perkThreshold == q.perkThreshold
      && (forall other :: other != id && other in s.pledges ==> other in r.post.pledges && r.post.pledges[other] == s.pledges[other])
      && r.post.pledges.Keys == s.pledges.Keys + {id}
      && IndexOf(r.post.pledgesByPatron, caller) == IndexOf(s.pledgesByPatron, caller) + [id]
      && IndexOf(r.post.pledgesByCreator, q.creator) == IndexOf(s.pledgesByCreator, q.creator) + [id]
      && (forall w :: w != caller ==> IndexOf(r.post.pledgesByPatron, w) == IndexOf(s.pledgesByPatron, w))
      && (forall w :: w != q.creator ==> IndexOf(r.post.pledgesByCreator, w) == IndexOf(s.pledgesByCreator, w))
      && r.post.(nextPledgeId := s.nextPledgeId, pledges := s.pledges,
                 pledgesByPatron := s.pledgesByPatron, pledgesByCreator := s.pledgesByCreator) == s
  {
    if s.nextPledgeId >= s.maxPledges then Outcome(s, Err(MaxPledgesExceeded))
    else if q.creator == caller then Outcome(s, Err(InvalidCreator))
    else if q.amount < s.minAmount then Outcome(s, Err(InvalidAmount))
    else if q.interval <= 0 then Outcome(s, Err(InvalidInterval))
    else if q.duration <= 0 then Outcome(s, Err(InvalidDuration))
    else if q.startBlock < height then Outcome(s, Err(InvalidStartBlock))
    else if q.currency !in Currencies then Outcome(s, Err(InvalidCurrency))
    else if q.gracePeriod > MaxGracePeriod then Outcome(s, Err(InvalidGracePeriod))
    else if q.penaltyRate > MaxPenaltyRate then Outcome(s, Err(InvalidPenalty))
    else if q.perkThreshold <= 0 then Outcome(s, Err(InvalidPerkThreshold))
    else if !IsSet(s.escrowContract) then Outcome(s, Err(EscrowNotSet))
    else
      var id := s.nextPledgeId;
      var post := s.(
        pledges := s.pledges[id := NewPledge(caller, q)],
        pledgesByPatron := Append(s.pledgesByPatron, caller, id),
        pledgesByCreator := Append(s.pledgesByCreator, q.creator, id),
        nextPledgeId := id + 1);
      Outcome(post, Ok(id))
  }

  /** The creation rules in the order the registry checks them. */
  function CreateRules(s: RegistryState, caller: string, height: int, q: PledgeRequest): Rules
  {
    Require(s.nextPledgeId < s.maxPledges, MaxPledgesExceeded,
    Require(q.creator != caller, InvalidCreator,
    Require(q.amount >= s.minAmount, InvalidAmount,
    Require(q.interval > 0, InvalidInterval,
    Require(q.duration > 0, InvalidDuration,
    Require(q.startBlock >= height, InvalidStartBlock,
    Require(q.currency in Currencies, InvalidCurrency,
    Require(q.gracePeriod <= MaxGracePeriod, InvalidGracePeriod,
    Require(q.penaltyRate <= MaxPenaltyRate, InvalidPenalty,
    Require(q.perkThreshold > 0, InvalidPerkThreshold,
    Require(IsSet(s.escrowContract), EscrowNotSet,
    Accept)))))))))))
  }

  // ---------------------------------------------------------------- queries

  function GetPledge(s: RegistryState, id: int): (r: Option<Pledge>)
    ensures r.Some? <==> id in s.pledges
    ensures r.Some? ==> r.value == s.pledges[id]
  {
    if id in s.pledges then Some(s.pledges[id]) else None
  }

  /** The number of pledges ever created, cancelled ones included. */
  function GetPledgeCount(s: RegistryState): Result<nat>
  {
    Ok(s.nextPledgeId)
  }

  // ---------------------------------------------------------------- updatePledge

  function Update(s: RegistryState, caller: string, height: int, id: int,
                  newAmount: int, newInterval: int, newDuration: int): (r: Outcome<bool>)
    ensures r.result.Err? ==> r.post == s
    ensures r.result.Ok? <==>
      && id in s.pledges && s.pledges[id].patron == caller && s.pledges[id].active
      && newAmount >= s.minAmount && newInterval > 0 && newDuration > 0
    ensures r.result.Ok? ==>
      && r.result.value
      && r.post.pledges.Keys == s.pledges.Keys
      && r.post.pledges[id] == s.pledges[id].(amount := newAmount, interval := newInterval, duration := newDuration)
      && (forall other :: other != id && other in s.pledges ==> r.post.pledges[other] == s.pledges[other])
      && r.post.pledgeUpdates.Keys == s.pledgeUpdates.Keys + {id}
      && r.post.pledgeUpdates[id] == PledgeUpdate(newAmount, newInterval, newDuration, height, caller)
      && (forall other :: other != id && other in s.pledgeUpdates ==> r.post.pledgeUpdates[other] == s.pledgeUpdates[other])
      && r.post.(pledges := s.pledges, pledgeUpdates := s.pledgeUpdates) == s
  {
    if id !in s.pledges then Outcome(s, Err(PledgeNotFound))
    else
      var p := s.pledges[id];
      if p.patron != caller then Outcome(s, Err(NotAuthorized))
      else if !p.active then Outcome(s, Err(PledgeInactive))
      else if newAmount < s.minAmount then Outcome(s, Err(InvalidAmount))
      else if newInterval <= 0 then Outcome(s, Err(InvalidInterval))
      else if newDuration <= 0 then Outcome(s, Err(InvalidDuration))
      else
        var updated := p.(amount := newAmount, interval := newInterval, duration := newDuration);
        var post := s.(
          pledges := s.pledges[id := updated],
          pledgeUpdates := s.pledgeUpdates[id := PledgeUpdate(newAmount, newInterval, newDuration, height, caller)]);
        Outcome(post, Ok(true))
  }

  /** The update rules in the order the registry checks them. */
  function UpdateRules(s: RegistryState, caller: string, id: int,
                       newAmount: int, newInterval: int, newDuration: int): Rules
  {
    if id !in s.pledges then Require(false, PledgeNotFound, Accept)
    else
      var p := s.pledges[id];
      Require(p.patron == caller, NotAuthorized,
      Require(p.active, PledgeInactive,
      Require(newAmount >= s.minAmount, InvalidAmount,
      Require(newInterval > 0, InvalidInterval,
      Require(newDuration > 0, InvalidDuration,
      Accept)))))
  }

  // ---------------------------------------------------------------- cancelPledge

  function Cancel(s: RegistryState, caller: string, id: int): (r: Outcome<bool>)
    ensures r.result.Err? ==> r.post == s
    ensures r.result.Ok? <==> id in s.pledges && s.pledges[id].patron == caller && s.pledges[id].active
    ensures r.result.Ok? ==>
      && r.result.value
      && r.post.pledges.Keys == s.pledges.Keys
      && r.post.pledges[id] == s.pledges[id].(active := false)
      && (forall other :: other != id && other in s.pledges ==> r.post.pledges[other] == s.pledges[other])
      && r.post.(pledges := s.pledges) == s
  {
    if id !in s.pledges then Outcome(s, Err(PledgeNotFound))
    else
      var p := s.pledges[id];
      if p.patron != caller then Outcome(s, Err(NotAuthorized))
      else if !p.active then Outcome(s, Err(PledgeInactive))
      else Outcome(s.(pledges := s.pledges[id := p.(active := false)]), Ok(true))
  }

  /** The cancellation rules in the order the registry checks them. */
  function CancelRules(s: RegistryState, caller: string, id: int): Rules
  {
    if id !in s.pledges then Require(false, PledgeNotFound, Accept)
    else
      var p := s.pledges[id];
      Require(p.patron == caller, NotAuthorized,
      Require(p.active, PledgeInactive,
      Accept))
  }

  // ---------------------------------------------------------------- executePayment

  /** Anyone may trigger a due payment: no caller check is made. */
  function ExecutePayment(s: RegistryState, height: int, id: int): (r: Outcome<bool>)
    ensures r.result.Err? ==> r.post == s
    ensures r.result.Ok? <==>
      && id in s.pledges && s.pledges[id].active
      && height >= s.pledges[id].lastPaymentBlock + s.pledges[id].interval
      && s.pledges[id].paymentsMade < s.pledges[id].duration
      && IsSet(s.escrowContract)
    ensures r.result.Ok? ==>
      && r.result.value
      && r.post.pledges.Keys == s.pledges.Keys
      && r.post.pledges[id] == s.pledges[id].(paymentsMade := s.pledges[id].paymentsMade + 1, lastPaymentBlock := height)
      && r.post.pledges[id].paymentsMade <= r.post.pledges[id].duration
      && (forall other :: other != id && other in s.pledges ==> r.post.pledges[other] == s.pledges[other])
      && r.post.stxTransfers == s.stxTransfers + [Transfer(s.pledges[id].amount, s.escrowContract.value, s.pledges[id].creator)]
      && r.post.(pledges := s.pledges, stxTransfers := s.stxTransfers) == s
  {
    if id !in s.pledges then Outcome(s, Err(PledgeNotFound))
    else
      var p := s.pledges[id];
      if !p.active then Outcome(s, Err(PledgeInactive))
      else if height < p.lastPaymentBlock + p.interval then Outcome(s, Err(PaymentNotDue))
      else if p.paymentsMade >= p.duration then Outcome(s, Err(PaymentNotDue))
      else if !IsSet(s.escrowContract) then Outcome(s, Err(EscrowNotSet))
      else
        var transfer := Transfer(p.amount, s.escrowContract.value, p.creator);
        var updated := p.(paymentsMade := p.paymentsMade + 1, lastPaymentBlock := height);
        Outcome(s.(stxTransfers := s.stxTransfers + [transfer], pledges := s.pledges[id := updated]), Ok(true))
  }

  /** The payment rules in the order the registry checks them. */
  function PaymentRules(s: RegistryState, height: int, id: int): Rules
  {
    if id !in s.pledges then Require(false, PledgeNotFound, Accept)
    else
      var p := s.pledges[id];
      Require(p.active, PledgeInactive,
      Require(height >= p.lastPaymentBlock + p.interval, PaymentNotDue,
      Require(p.paymentsMade < p.duration, PaymentNotDue,
      Require(IsSet(s.escrowContract), EscrowNotSet,
      Accept))))
  }
}
