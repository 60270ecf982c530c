/** Client code that drives a PledgeRegistry through the situations the
    system's own test cases describe; every expected outcome is an assertion
    proved from the methods' specifications alone. */
module Scenarios {
  import opened PledgeTypes
  import opened PledgeManager

  const Patron: string := "ST1PATRON"
  const Escrow: string := "STESCROW"

  /** A registry with the escrow set and pledge 0 created at height 0 by
      Patron for STCREATOR: 100 STX every 4320 blocks, `duration` times. */
  method OnePledge(duration: int) returns (m: PledgeRegistry)
    requires duration > 0
    ensures fresh(m) && m.Valid()
    ensures m.GetPledge(0) == Some(Pledge(Patron, "STCREATOR", 100, 4320, 0, duration, 0, 0, true, "STX", 7, 5, 50))
    ensures m.nextPledgeId == 1 && m.escrowContract == Some(Escrow) && m.stxTransfers == [] && m.minAmount == 10
  {
    m := new PledgeRegistry();
    var ok := m.SetEscrowContract(Escrow);
    var id := m.CreatePledge(Patron, 0, "STCREATOR", 100, 4320, 0, duration, "STX", 7, 5, 50);
    assert id == Ok(0);
  }

  method CreateValidation()
  {
    var m := new PledgeRegistry();
    var r := m.CreatePledge(Patron, 0, "STCREATOR", 100, 4320, 0, 12, "STX", 7, 5, 50);
    assert r == Err(EscrowNotSet);
    var ok := m.SetEscrowContract(Escrow);
    r := m.CreatePledge(Patron, 0, Patron, 100, 4320, 0, 12, "STX", 7, 5, 50);
    assert r == Err(InvalidCreator);
    r := m.CreatePledge(Patron, 0, "STCREATOR", 5, 4320, 0, 12, "STX", 7, 5, 50);
    assert r == Err(InvalidAmount);
    r := m.CreatePledge(Patron, 0, "STCREATOR", 100, 0, 0, 12, "STX", 7, 5, 50);
    assert r == Err(InvalidInterval);
    r := m.CreatePledge(Patron, 0, "STCREATOR", 100, 4320, 0, 0, "STX", 7, 5, 50);
    assert r == Err(InvalidDuration);
    r := m.CreatePledge(Patron, 10, "STCREATOR", 100, 4320, 5, 12, "STX", 7, 5, 50);
    assert r == Err(InvalidStartBlock);
    r := m.CreatePledge(Patron, 0, "STCREATOR", 100, 4320, 0, 12, "ETH", 7, 5, 50);
    assert r == Err(InvalidCurrency);
    r := m.CreatePledge(Patron, 0, "STCREATOR", 100, 4320, 0, 12, "STX", 31, 5, 50);
    assert r == Err(InvalidGracePeriod);
    r := m.CreatePledge(Patron, 0, "STCREATOR", 100, 4320, 0, 12, "STX", 7, 101, 50);
    assert r == Err(InvalidPenalty);
    r := m.CreatePledge(Patron, 0, "STCREATOR", 100, 4320, 0, 12, "STX", 7, 5, 0);
    assert r == Err(InvalidPerkThreshold);
    var count := m.GetPledgeCount();
    assert count == Ok(0);
  }

  method PledgeCount()
  {
    var m := new PledgeRegistry();
    var ok := m.SetEscrowContract(Escrow);
    var a := m.CreatePledge(Patron, 0, "STCREATOR1", 100, 4320, 0, 12, "STX", 7, 5, 50);
    var b := m.CreatePledge(Patron, 0, "STCREATOR2", 200, 8640, 0, 6, "USD", 14, 10, 100);
    assert a == Ok(0) && b == Ok(1);
    var count := m.GetPledgeCount();
    assert count == Ok(2);
  }

  method Capacity()
  {
    var n := new PledgeRegistry();
    var ok := n.SetEscrowContract(Escrow);
    n.maxPledges := 1;
    var a := n.CreatePledge(Patron, 0, "STCREATOR", 100, 4320, 0, 12, "STX", 7, 5, 50);
    var b := n.CreatePledge(Patron, 0, "STCREATOR2", 200, 8640, 0, 6, "USD", 14, 10, 100);
    assert a == Ok(0) && b == Err(MaxPledgesExceeded);
  }

  method UpdateAndCancel()
  {
    var m := OnePledge(12);
    var r := m.UpdatePledge(Patron, 0, 99, 200, 8640, 24);
    assert r == Err(PledgeNotFound);
    r := m.UpdatePledge("ST2FAKE", 0, 0, 200, 8640, 24);
    assert r == Err(NotAuthorized);
    r := m.CancelPledge("ST2FAKE", 0);
    assert r == Err(NotAuthorized);
    r := m.UpdatePledge(Patron, 0, 0, 200, 8640, 24);
    assert r == Ok(true);
    assert m.pledges[0].amount == 200 && m.pledges[0].interval == 8640 && m.pledges[0].duration == 24;
    assert m.pledgeUpdates[0] == PledgeUpdate(200, 8640, 24, 0, Patron);
    r := m.CancelPledge(Patron, 99);
    assert r == Err(PledgeNotFound);
    r := m.CancelPledge(Patron, 0);
    assert r == Ok(true) && !m.pledges[0].active;
    r := m.UpdatePledge(Patron, 0, 0, 200, 8640, 24);
    assert r == Err(PledgeInactive);
    r := m.ExecutePayment(8640, 0);
    assert r == Err(PledgeInactive);
  }

  method Payments()
  {
    var m := OnePledge(12);
    var r := m.ExecutePayment(4319, 0);
    assert r == Err(PaymentNotDue);
    r := m.ExecutePayment(4320, 99);
    assert r == Err(PledgeNotFound);
    r := m.ExecutePayment(4320, 0);
    assert r == Ok(true);
    assert m.pledges[0].paymentsMade == 1 && m.pledges[0].lastPaymentBlock == 4320;
    assert m.stxTransfers == [Transfer(100, Escrow, "STCREATOR")];
    r := m.ExecutePayment(4320, 0);
    assert r == Err(PaymentNotDue);

    var once := OnePledge(1);
    r := once.ExecutePayment(4320, 0);
    assert r == Ok(true);
    r := once.ExecutePayment(8640, 0);
    assert r == Err(PaymentNotDue);
  }

  method MinAmount()
  {
    var m := new PledgeRegistry();
    var r := m.SetMinAmount(20);
    assert r == Err(AuthorityNotVerified) && m.minAmount == 10;
    var ok := m.SetAuthorityContract("STAUTH");
    r := m.SetMinAmount(20);
    assert r == Ok(true) && m.minAmount == 20;
  }
}
