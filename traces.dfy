/** Sequences of calls on the registry: what every operation, and so every run
    of operations, preserves or can only move in one direction. */
module Traces {
  import opened PledgeTypes
  import opened RegistrySpec
  import L = RegistryLemmas

  /** One call of the registry's interface, with the caller and block height it runs under. */
  datatype Call =
    | SetEscrow(contractPrincipal: string)
    | SetAuthority(contractPrincipal: string)
    | SetMin(newMin: int)
    | CreateCall(caller: string, height: int, request: PledgeRequest)
    | UpdateCall(caller: string, height: int, id: int, newAmount: int, newInterval: int, newDuration: int)
    | CancelCall(caller: string, id: int)
    | PayCall(height: int, id: int)

  function Apply(s: RegistryState, c: Call): RegistryState
  {
    match c
    case SetEscrow(e) => SetEscrowContract(s, e).post
    case SetAuthority(a) => SetAuthorityContract(s, a).post
    case SetMin(m) => SetMinAmount(s, m).post
    case CreateCall(caller, height, q) => Create(s, caller, height, q).post
    case UpdateCall(caller, height, id, a, i, d) => Update(s, caller, height, id, a, i, d).post
    case CancelCall(caller, id) => Cancel(s, caller, id).post
    case PayCall(height, id) => ExecutePayment(s, height, id).post
  }

  function Run(s: RegistryState, calls: seq<Call>): RegistryState
    decreases |calls|
  {
    if calls == [] then s else Run(Apply(s, calls[0]), calls[1..])
  }

  /** How a pledge may change over its life: its parties, start, currency and
      bounds never change; payments made and the last payment height never go
      down; and once inactive it stays inactive. */
  ghost predicate LaterVersion(p: Pledge, q: Pledge)
  {
    && q.patron == p.patron && q.creator == p.creator
    && q.startBlock == p.startBlock && q.currency == p.currency
    && q.gracePeriod == p.gracePeriod && q.penaltyRate == p.penaltyRate
    && q.perkThreshold == p.perkThreshold
    && p.paymentsMade <= q.paymentsMade
    && p.lastPaymentBlock <= q.lastPaymentBlock
    && (!p.active ==> !q.active)
  }

  /** How the whole registry may change: no pledge disappears and each only
      moves to a later version, the id counter never goes down, each index
      only grows at its end, and the transfer log only grows at its end. */
  ghost predicate Evolves(s: RegistryState, t: RegistryState)
  {
    && s.nextPledgeId <= t.nextPledgeId
    && (forall id :: id in s.pledges ==> id in t.pledges && LaterVersion(s.pledges[id], t.pledges[id]))
    && (forall role, who :: IndexOf(Index(s, role), who) <= IndexOf(Index(t, role), who))
    && s.stxTransfers <= t.stxTransfers
  }

  lemma EvolvesTransitive(s: RegistryState, t: RegistryState, u: RegistryState)
    requires Evolves(s, t) && Evolves(t, u)
    ensures Evolves(s, u)
  {
  }

  lemma {:induction false} ApplyPreservesInv(s: RegistryState, c: Call)
    requires Inv(s)
    ensures Inv(Apply(s, c))
  {
    match c
    case SetEscrow(_) =>
    case SetAuthority(_) =>
    case SetMin(_) =>
    case CreateCall(caller, height, q) => L.CreatePreservesInv(s, caller, height, q);
    case UpdateCall(caller, height, id, a, i, d) => L.UpdatePreservesInv(s, caller, height, id, a, i, d);
    case CancelCall(caller, id) => L.CancelPreservesInv(s, caller, id);
    case PayCall(height, id) => L.PaymentPreservesInv(s, height, id);
  }

  lemma ApplyEvolves(s: RegistryState, c: Call)
    requires Inv(s)
    ensures Evolves(s, Apply(s, c))
  {
  }

  /** Every run of calls from a valid registry keeps it valid and only evolves it. */
  lemma {:induction false} RunEvolves(s: RegistryState, calls: seq<Call>)
    requires Inv(s)
    ensures Inv(Run(s, calls))
    ensures Evolves(s, Run(s, calls))
    decreases |calls|
  {
    if calls != [] {
      var t := Apply(s, calls[0]);
      ApplyPreservesInv(s, calls[0]);
      ApplyEvolves(s, calls[0]);
      RunEvolves(t, calls[1..]);
      EvolvesTransitive(s, t, Run(t, calls[1..]));
    }
  }

  /** Cancellation is final: after a successful cancelPledge, whatever calls
      follow, the pledge is still there, still inactive, and neither its
      patron's update nor any payment on it can succeed. */
  lemma CancelIsFinal(s: RegistryState, caller: string, id: int, calls: seq<Call>,
                      height: int, newAmount: int, newInterval: int, newDuration: int)
    requires Inv(s)
    requires Cancel(s, caller, id).result.Ok?
    ensures var t := Run(Cancel(s, caller, id).post, calls);
      && id in t.pledges && !t.pledges[id].active
      && Update(t, caller, height, id, newAmount, newInterval, newDuration).result == Err(PledgeInactive)
      && ExecutePayment(t, height, id).result == Err(PledgeInactive)
  {
    var c := Cancel(s, caller, id).post;
    L.CancelPreservesInv(s, caller, id);
    RunEvolves(c, calls);
  }

  /** Over any run, each index keeps every id it held, at the same position. */
  lemma IndexesAppendOnly(s: RegistryState, calls: seq<Call>, role: Role, who: string, k: nat)
    requires Inv(s)
    requires k < |IndexOf(Index(s, role), who)|
    ensures var t := Run(s, calls);
      && k < |IndexOf(Index(t, role), who)|
      && IndexOf(Index(t, role), who)[k] == IndexOf(Index(s, role), who)[k]
  {
    RunEvolves(s, calls);
    assert IndexOf(Index(s, role), who) <= IndexOf(Index(Run(s, calls), role), who);
  }

  /** Over any run, the last payment height of a pledge never decreases and
      its payment count never goes down. */
  lemma PaymentsMonotone(s: RegistryState, calls: seq<Call>, id: int)
    requires Inv(s) && id in s.pledges
    ensures var t := Run(s, calls);
      && id in t.pledges
      && t.pledges[id].lastPaymentBlock >= s.pledges[id].lastPaymentBlock
      && t.pledges[id].paymentsMade >= s.pledges[id].paymentsMade
  {
    RunEvolves(s, calls);
  }
}
