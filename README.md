# Crowdfunding escrow contract — Dafny model

This project models `Crowdfunding`, a small escrow smart contract. Donors pay
toward a target. After the deadline, one of two things happens. If the
contract's balance reached the target, the owner takes the whole balance.
Otherwise each donor takes back their own deposit.

The contract keeps three storage slots: `target`, `deadline` (a 64-bit block
nonce) and `deposit[donor]`. It reads everything else from the host
blockchain during a call: the block nonce (its notion of time), the caller,
the owner address and its own balance. In the model, these host inputs form
one `Host` value that is passed to each operation.

- `crowdfunding.dfy` (module `Crowdfunding`) holds the data model:
  - `Status`, `Error` (with the exact messages, in `Message`), `Outcome` and `Transfer`.
  - The storage operations: reading a slot with an empty slot as zero (`DepositOf`), `update` (`Credit`) and `clear` (`Clear`).
  - The `status` view (`StatusAt`) and `get_current_funds` (`CurrentFunds`, the host balance).
  - Each endpoint as a pure function of its inputs (`FundEffect`, `ClaimEffect`).
  - The contract as a class, `Crowdfunding`. Its constructor is a fresh deployment followed by `init` (`Init`). Its methods `Fund` and `Claim` update the `deposit` field in place and append to a ghost log of `send().direct` transfers. Each method is proved against its pure function.
  - Lemmas about sequences of calls (`FundAll`, `PaidBy`) and about how the status evolves.
- `scenarios.dfy` (module `Scenarios`) drives two whole campaigns through the class.

## The guards as written

The guard of `fund` (src/lib.rs:40) is `require!(current_time > deadline, "cannot fund after deadline")`.
`require!` aborts when its condition is false. So the contract accepts a
payment only *after* the deadline and refuses it at or before the deadline.
That is the opposite of what the message says. The model keeps the guard
exactly as written (`FundGuard`). `NoFundingUpToDeadline` and
`Scenarios.FailedCampaign` show the consequence: no payment made during the
funding period is ever recorded.

The comment above `status` gives `current_time < deadline` for the funding
period. The code uses `<=` (src/lib.rs:60), and the model follows the code.
As a result, `fund` accepts exactly when `status` is not `FundingPeriod`
(`FundAcceptedOnlyAfterFundingPeriod`).

The owner's claim pays out the balance but leaves every deposit slot in
place. If the target is positive, the drained contract then reads as
`Failed`, and every donor becomes entitled to a refund the contract no longer
holds (`OwnerClaimLeavesRefundsOwed`).

## Model

| member | source | states |
|---|---|---|
| `Crowdfunding.StatusAt` | src/lib.rs:58-67 | status is FundingPeriod iff nonce <= deadline, whatever the balance; Successful iff past the deadline and balance >= target; Failed iff past the deadline and balance < target (the three cases are exhaustive and exclusive) |
| `Crowdfunding.Message` | src/lib.rs:40-87 | each error carries its exact message: "cannot fund after deadline", "cannot claim before deadline", "only owner can claim successful funding" |
| `Crowdfunding.MessageIdentifiesError` | src/lib.rs:40-87 | the three messages are distinct, so the error can be told from its message alone |
| `Crowdfunding.DepositOf` | src/lib.rs:19-21 | reading a deposit slot gives the stored amount, and an empty slot reads as zero |
| `Crowdfunding.CurrentFunds` | src/lib.rs:69-73 | the current funds are the balance the host reports for the contract, not a value derived from the deposit slots |
| `Crowdfunding.FundGuard` | src/lib.rs:38-40 | accepts iff nonce > deadline, the `require!` condition as written |
| `Crowdfunding.Credit` | src/lib.rs:44-48 | updating a slot raises that donor's deposit by exactly the payment (an empty slot counting as zero) and leaves every other donor's deposit unchanged |
| `Crowdfunding.Clear` | src/lib.rs:99-103 | clearing a slot makes that donor's deposit read zero and leaves every other donor's deposit unchanged |
| `Crowdfunding.FundEffect` | src/lib.rs:33-51 | fund succeeds iff nonce > deadline (the guard as written); otherwise it fails with "cannot fund after deadline" and the slots are unchanged; on success only the caller's deposit changes, by exactly the payment; fund never transfers |
| `Crowdfunding.ClaimEffect` | src/lib.rs:77-111 | during the funding period: error "cannot claim before deadline", no change, no transfer; Successful: a non-owner gets "only owner can claim successful funding" and no transfer, the owner gets one transfer of the whole balance, and the slots are untouched in both cases; Failed: success, the caller's slot is cleared, other slots are unchanged, and exactly one refund of the old deposit is sent if it was positive, none otherwise; at most one transfer, always to the caller; an error changes nothing |
| `Crowdfunding.Crowdfunding.constructor` | src/lib.rs:25-29 | deployment: a fresh instance runs init, so target and deadline hold the given values verbatim with no validation, every deposit slot is empty and no transfer has been made |
| `Crowdfunding.Crowdfunding.Init` | src/lib.rs:26-29 | init writes target and deadline verbatim, with no validation of a zero target or a past deadline, and changes nothing else: over an existing instance the deposit slots and the transfer log survive |
| `Crowdfunding.Crowdfunding.GetDeposit` | src/lib.rs:19-21 | the getDeposit view gives a donor's stored deposit, and zero for a donor whose slot is empty |
| `Crowdfunding.Crowdfunding.Fund` | src/lib.rs:33-51 | the outcome and the new deposit map are those of FundEffect for the old map; target, deadline and the transfer log do not change |
| `Crowdfunding.Crowdfunding.Claim` | src/lib.rs:77-111 | the outcome and the new deposit map are those of ClaimEffect for the old map, and the transfer log grows by exactly ClaimEffect's transfers; target and deadline do not change |
| `Crowdfunding.FundAllDeposit` | src/lib.rs:44-48 | after any sequence of fund calls, a donor's deposit equals its earlier value plus the sum of that donor's accepted payments |
| `Crowdfunding.NoFundingUpToDeadline` | src/lib.rs:38-40 | any sequence of fund calls made at or before the deadline leaves every slot unchanged |
| `Crowdfunding.FundAcceptedOnlyAfterFundingPeriod` | src/lib.rs:40-60 | fund accepts a payment iff status is not FundingPeriod at that nonce, for any balance and target |
| `Crowdfunding.StatusSettles` | src/lib.rs:59-67 | once past the deadline, the status never returns to FundingPeriod at a later nonce, and with the same balance it stays the same |
| `Crowdfunding.ZeroTargetNeverFails` | src/lib.rs:26-29 | since init accepts a zero target, such a campaign is never Failed |
| `Crowdfunding.SecondRefundSendsNothing` | src/lib.rs:98-109 | after a claim in the Failed state, a second claim by the same donor at a later nonce, with no more funds held, succeeds with no transfer and no change |
| `Crowdfunding.OwnerClaimLeavesRefundsOwed` | src/lib.rs:83-109 | with a positive target, the owner's successful claim sends the whole balance and leaves every deposit slot unchanged; once the balance is zero the status is Failed, and any donor with a positive deposit (the owner included) asks the host to send back their whole deposit, which the drained contract no longer holds |
| `Scenarios.FailedCampaign` | src/lib.rs:26-111 | target 1000, deadline 100: a payment of 400 at nonce 50 is refused, one at nonce 101 is accepted, the campaign holding 400 has failed, and the donor's claim succeeds, empties their slot and makes exactly one transfer, of 400 to the donor |
| `Scenarios.SuccessfulCampaign` | src/lib.rs:77-95 | target 1000, deadline 100, 1200 paid at nonce 101: the donor's claim fails with "only owner can claim successful funding", the owner's succeeds, the donor's slot still reads 1200, and exactly one transfer is made, of 1200 to the owner |

## Left out

- The host's accounting of the balance is not modelled. The model does not add an attached payment to the balance, and it does not subtract a transfer from it. Instead, the balance is an input of each call (`Host.balance`), as `get_sc_balance` is. Subtracting a refund would require modelling failed transfers, because a refund can exceed the balance once the owner has claimed.
- Transfers always succeed, and their outcome is not inspected, as in the contract. Failure, rollback and re-entrancy are not modelled. The slot is still cleared before the refund is sent, as in the contract.
- The block nonce, the caller, the owner address and the balance are `Host` fields, not calls into the host.
- The storage-mapper framework and the endpoint and payable annotations are not modelled beyond their effect: set, update, clear, or abort with an error.
- The wire encoding of `Status` (its derives at src/lib.rs:115) is not part of this model.
- `BigUint` amounts are unbounded `nat`. The EGLD token identifier, the token nonce 0 and the memo "claim" are constants with no behaviour, so `Transfer` records only the recipient and the amount.
- The views `getTarget` and `getDeadline` are the fields `target` and `deadline`.
- Payments carry no token. `fund` is payable in any token (src/lib.rs:32) and credits the attached amount to the caller's deposit whatever the token (src/lib.rs:48). But `get_current_funds` and both payouts are in EGLD only. The model treats every payment as an amount of EGLD, so it does not capture deposits recorded in another token, which the EGLD balance and payouts do not include.
