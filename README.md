# Pledge registry model

A Dafny model of the pledge manager of a decentralised patronage platform.
The pledge manager is an in-memory registry of recurring pledges. Each pledge runs from a patron to a creator.
The registry holds:

- a global configuration: the next pledge id, the maximum number of pledges, the minimum amount, and optional escrow and authority references;
- the pledges, keyed by id;
- the latest update record of each pledge;
- two append-only secondary indexes, one by patron and one by creator;
- a log of transfer instructions.

Its operations form a small state machine:

- `createPledge` runs eleven ordered, short-circuiting checks and then allocates an id.
- `updatePledge` lets the patron change a pledge's amount, interval and duration.
- `cancelPledge` deactivates a pledge for good.
- `executePayment` records one transfer when a payment is due and the pledge's quota is not used up.
- `setMinAmount` needs an authority reference to be configured.

The project has these modules:

- `PledgeTypes` (pledge_types.dfy) holds the records, the error codes and their numbers, and `Rules`/`Verdict`. `Verdict` states ordered validation as "the first rule that does not hold decides".
- `RegistrySpec` (registry_spec.dfy) models the registry as a value, `RegistryState`. Each operation is a function from the state before a call to the state after it, plus the call's result. The same module holds the registry invariant `Inv` and, per operation, the table of its rules in checking order.
- `RegistryLemmas` (registry_lemmas.dfy) proves:
  - every operation preserves `Inv`;
  - each operation fails with the first broken rule of its table;
  - the indexes agree with the pledge map;
  - the payment bookkeeping properties hold.
- `Traces` (traces.dfy) proves what holds over any sequence of calls:
  - cancellation is final;
  - `lastPaymentBlock` and `paymentsMade` never decrease;
  - the parties of a pledge never change;
  - the indexes and the transfer log only grow at their end.
- `PledgeManager` (pledge_manager.dfy) holds the class `PledgeRegistry`. Its fields are the mock's fields, and its methods update them in place, with the same branches as the source. Each method is proved to produce exactly the state and result of the matching `RegistrySpec` function, so every property above holds of the object.
- `Scenarios` (scenarios.dfy) is client code that replays the system's test cases against the class. Each expected outcome is an assertion proved from the method contracts.

The caller identity and the current block height are inputs to each call. The system's tests assign them as fields of the mock.

## Model

| member | source | states |
|---|---|---|
| PledgeTypes.Code | tests/PledgeManager.test.ts:4-22 | each error maps to its numeric code, between 100 and 120; 111 and 117 are never used |
| PledgeTypes.CodesDistinct | tests/PledgeManager.test.ts:4-22 | two errors share a code only if they are the same error |
| RegistrySpec.Initial | tests/PledgeManager.test.ts:65-79 | the initial registry has no pledges, id counter 0, no escrow or authority, capacity 10000, minimum amount 10 and an empty transfer log |
| RegistrySpec.Append | tests/PledgeManager.test.ts:159-162 | adding an id to an index puts it at the end of that party's list (an absent party counts as empty) and leaves every other party's list alone |
| RegistrySpec.SetEscrowContract | tests/PledgeManager.test.ts:103-106 | always succeeds; the escrow becomes the given reference and counts as configured iff it is non-empty; nothing else changes |
| RegistrySpec.SetAuthorityContract | tests/PledgeManager.test.ts:108-111 | always succeeds; the authority becomes the given reference and counts as configured iff it is non-empty; nothing else changes |
| RegistrySpec.SetMinAmount | tests/PledgeManager.test.ts:113-117 | succeeds iff an authority is configured and then overwrites the minimum amount; otherwise fails with AuthorityNotVerified and leaves the registry unchanged |
| RegistrySpec.Create | tests/PledgeManager.test.ts:130-165 | failure leaves the registry unchanged, and a pledge to oneself never succeeds. Success returns the prior id counter and raises the counter by one. It stores a pledge with patron = caller, zero payments, lastPaymentBlock = startBlock, active, and the other fields from the request. It appends the id to the caller's patron list and the creator's creator list, and changes nothing else |
| RegistrySpec.GetPledge | tests/PledgeManager.test.ts:167-169 | finds a pledge exactly when the id is stored, and returns the stored record |
| RegistrySpec.Update | tests/PledgeManager.test.ts:171-195 | succeeds iff the pledge exists, the caller is its patron, it is active, and the new amount, interval and duration are valid. Success replaces only those three fields and overwrites the update record with them, the height and the caller. Failure changes nothing |
| RegistrySpec.Cancel | tests/PledgeManager.test.ts:197-206 | succeeds iff the pledge exists, the caller is its patron and it is active. Success clears `active` on that pledge only. Failure changes nothing |
| RegistrySpec.ExecutePayment | tests/PledgeManager.test.ts:208-226 | succeeds iff the pledge exists, is active, height ≥ lastPaymentBlock + interval, paymentsMade < duration, and an escrow is configured. Success adds one to paymentsMade (never above duration), sets lastPaymentBlock to the height, and appends exactly one transfer {amount, escrow, creator}. Failure changes nothing |
| RegistryLemmas.IndexConsistent | tests/PledgeManager.test.ts:159-162 | in a valid registry, a party's patron or creator index holds exactly the ids of the pledges where that party has that role, strictly increasing, so in creation order and without repeats |
| RegistryLemmas.PledgeCountIsSize | tests/PledgeManager.test.ts:228-230 | the contract of `RegistrySpec.GetPledgeCount`: getPledgeCount equals the number of stored pledges, cancelled ones included; an id is found iff it is below the count |
| RegistryLemmas.InitialInv | tests/PledgeManager.test.ts:85-101 | the initial registry satisfies the invariant |
| RegistryLemmas.CreatePreservesInv | tests/PledgeManager.test.ts:142-164 | createPledge preserves the invariant: dense ids, well-formed pledges, update records that reflect their pledge, and indexes equal to their reference definition |
| RegistryLemmas.UpdatePreservesInv | tests/PledgeManager.test.ts:180-193 | updatePledge preserves the invariant |
| RegistryLemmas.CancelPreservesInv | tests/PledgeManager.test.ts:203-204 | cancelPledge preserves the invariant |
| RegistryLemmas.PaymentPreservesInv | tests/PledgeManager.test.ts:217-224 | executePayment preserves the invariant |
| RegistryLemmas.CreateFollowsRules | tests/PledgeManager.test.ts:130-142 | createPledge returns the error of the first rule that fails, in this order: capacity, creator ≠ caller, amount, interval, duration, start block, currency, grace period, penalty, perk threshold, escrow. It succeeds with the prior count iff all rules hold |
| RegistryLemmas.UpdateFollowsRules | tests/PledgeManager.test.ts:172-178 | updatePledge fails on the first broken rule, in this order: not found, not authorized, inactive, amount, interval, duration |
| RegistryLemmas.CancelFollowsRules | tests/PledgeManager.test.ts:198-201 | cancelPledge fails on the first broken rule, in this order: not found, not authorized, inactive |
| RegistryLemmas.PaymentFollowsRules | tests/PledgeManager.test.ts:209-215 | executePayment fails on the first broken rule, in this order: not found, inactive, too early, quota used up, escrow. Too early and quota used up both give PaymentNotDue |
| RegistryLemmas.SelfPledgeRefused | tests/PledgeManager.test.ts:130-131 | below capacity, a pledge whose creator is the caller fails with InvalidCreator whatever the other arguments |
| RegistryLemmas.AtCapacityRefuses | tests/PledgeManager.test.ts:130 | once the counter has reached the capacity, every creation fails with MaxPledgesExceeded, whoever calls and whatever the arguments, and the registry is unchanged |
| RegistryLemmas.CapacityOfOne | tests/PledgeManager.test.ts:130-163 | with a capacity of one, the creation after a successful one fails with MaxPledgesExceeded |
| RegistryLemmas.CreateCountsUp | tests/PledgeManager.test.ts:142-164 | the id returned is the pledge count before the call and was not in use; the count after is one more; getPledge then returns the new pledge |
| RegistryLemmas.InactiveRefusesAll | tests/PledgeManager.test.ts:171-211 | on an inactive pledge no update, cancel or payment succeeds. The patron's update and any payment attempt fail with PledgeInactive |
| RegistryLemmas.NoSecondPaymentAtSameHeight | tests/PledgeManager.test.ts:212-222 | after a successful payment, lastPaymentBlock has strictly increased and a second payment at the same height fails with PaymentNotDue |
| RegistryLemmas.QuotaExhaustedRefuses | tests/PledgeManager.test.ts:214 | an active pledge whose payments reached its duration is refused with PaymentNotDue at every height |
| Traces.ApplyPreservesInv | tests/PledgeManager.test.ts:103-226 | every operation of the interface preserves the invariant |
| Traces.ApplyEvolves | tests/PledgeManager.test.ts:103-226 | every operation only evolves the registry. The counter never decreases and no pledge disappears. Parties, start block, currency and bounds never change. Payments and lastPaymentBlock never decrease, and an inactive pledge stays inactive. The indexes and the transfer log only grow at their end |
| Traces.RunEvolves | tests/PledgeManager.test.ts:103-226 | every sequence of calls from a valid registry keeps it valid and only evolves it |
| Traces.CancelIsFinal | tests/PledgeManager.test.ts:197-206 | after a successful cancellation, whatever calls follow, the pledge stays inactive, and the patron's update and any payment fail with PledgeInactive |
| Traces.IndexesAppendOnly | tests/PledgeManager.test.ts:159-162 | over any sequence of calls, every id an index holds stays at the same position |
| Traces.PaymentsMonotone | tests/PledgeManager.test.ts:219-223 | over any sequence of calls, a pledge's lastPaymentBlock and paymentsMade never decrease |
| PledgeManager.PledgeRegistry.constructor | tests/PledgeManager.test.ts:81-101 | a new registry holds the initial state and is valid |
| PledgeManager.PledgeRegistry.SetEscrowContract | tests/PledgeManager.test.ts:103-106 | the object's new state and result are those of RegistrySpec.SetEscrowContract; validity is kept |
| PledgeManager.PledgeRegistry.SetAuthorityContract | tests/PledgeManager.test.ts:108-111 | the object's new state and result are those of RegistrySpec.SetAuthorityContract; validity is kept |
| PledgeManager.PledgeRegistry.SetMinAmount | tests/PledgeManager.test.ts:113-117 | the object's new state and result are those of RegistrySpec.SetMinAmount; validity is kept |
| PledgeManager.PledgeRegistry.CreatePledge | tests/PledgeManager.test.ts:119-165 | the object's new state and result are those of RegistrySpec.Create; validity is kept |
| PledgeManager.PledgeRegistry.GetPledge | tests/PledgeManager.test.ts:167-169 | in a valid registry, a pledge is found exactly for the ids below the counter, and the result is the stored record |
| PledgeManager.PledgeRegistry.UpdatePledge | tests/PledgeManager.test.ts:171-195 | the object's new state and result are those of RegistrySpec.Update; validity is kept |
| PledgeManager.PledgeRegistry.CancelPledge | tests/PledgeManager.test.ts:197-206 | the object's new state and result are those of RegistrySpec.Cancel; validity is kept |
| PledgeManager.PledgeRegistry.ExecutePayment | tests/PledgeManager.test.ts:208-226 | the object's new state and result are those of RegistrySpec.ExecutePayment; validity is kept |
| PledgeManager.PledgeRegistry.GetPledgeCount | tests/PledgeManager.test.ts:228-230 | in a valid registry the count returned is the number of stored pledges, cancelled ones included |

## Behaviour of the code worth knowing

- Amounts need not be positive. Creation and update only check `amount >= minAmount` (tests/PledgeManager.test.ts:132, 176), and `setMinAmount` stores any value (line 115). The model does the same.
- Grace period and penalty rate are bounded only from above. Creation refuses `gracePeriod > 30` and `penaltyRate > 100` (lines 137-138), so negative values pass. The model does the same.
- The first payment is not due at `startBlock`. Creation sets `lastPaymentBlock` to `startBlock` (line 151), and a payment is due once the height reaches `lastPaymentBlock + interval` (lines 212-213). So the first payment is due at `startBlock + interval`. The model does the same.
- `paymentsMade <= duration` holds right after every payment (`RegistrySpec.ExecutePayment`), but it is not an invariant. `updatePledge` accepts any positive duration (line 178), including one below the payments already made. While `paymentsMade >= duration` and the pledge is active, every payment attempt fails with PaymentNotDue (`RegistryLemmas.QuotaExhaustedRefuses`). A later `updatePledge` that raises the duration above `paymentsMade` makes payments possible again.

## Left out

- The test harness (describe/it/expect) and the unused transaction-library import. The test cases are replayed in `Scenarios` instead.
- `reset`: the model keeps only its initial values (the constructor and `RegistrySpec.Initial`).
- `defaultInterval` is stored but never read.
- PledgeAlreadyExists, InsufficientFunds and InvalidUpdateParam have codes, but no operation returns them.
- Host-language numbers: the model assumes every numeric argument is a whole number and not NaN. The code does not check this: creation and update only compare signs and bounds (tests/PledgeManager.test.ts:132-139, 176-178), so a duration of 2.5 or a NaN interval or duration is accepted. With such values the quota test at line 214 lets extra payments through, and a NaN interval makes a payment due at every height. A NaN interval also lets a payment move `lastPaymentBlock` below its earlier value, or below `startBlock`. So every result about payment timing and about `RegistrySpec.Inv` depends on this assumption. These include the `WellFormed` clauses of `Inv` (`interval > 0`, `duration > 0`, `startBlock <= lastPaymentBlock`), and so every `*PreservesInv` lemma and `Traces.ApplyPreservesInv`. They also include `paymentsMade <= duration` after a successful payment (`RegistrySpec.ExecutePayment`), `RegistryLemmas.NoSecondPaymentAtSameHeight`, `Traces.PaymentsMonotone`, and the `lastPaymentBlock` clause of `Traces.LaterVersion`, and so `Traces.ApplyEvolves`, `Traces.RunEvolves` and `Traces.CancelIsFinal`. Floating-point rounding is not modelled either.
- Escrow and authority references are `Option<string>`. "Configured" means present and non-empty (`IsSet`), as with the source's truthiness test on `null` and `""`.
- The caller and the block height are parameters of each call rather than fields. The model does not require the height to be monotone, and no proof relies on it.
- Fund movement, escrow custody and the authority contract are external collaborators. A payment only appends an entry to `stxTransfers`.
- `setMinAmount` checks only that some authority is configured, not that the caller is that authority. The model preserves this.
- `maxPledges` is a public field that clients may assign, as the system's tests do. No operation changes it.
- PledgeManager.PledgeRegistry.GetPledge: returns the pledge by value. The source returns the stored object itself, so a caller who mutated it would change the registry. That aliasing is not modelled.
- Concurrency and the host runtime: calls are assumed to run one at a time.
