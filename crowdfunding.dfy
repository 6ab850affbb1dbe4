/** A model of the escrow crowdfunding contract `Crowdfunding` of src/lib.rs.

    The contract keeps three storage slots: `target`, `deadline` and the keyed
    family `deposit[donor]`. Everything else it uses comes from the host
    blockchain during a call (block nonce, caller, owner, contract balance);
    here that is the `Host` value passed to each operation. Transfers made with
    `send().direct` are recorded in a ghost log.
 */
module Crowdfunding {

  /** The host's 64-bit unsigned integers: block nonces and the deadline. */
  type U64 = x: nat | x < 0x1_0000_0000_0000_0000

  /** A 32-byte account address. */
  type Addr = s: seq<bv8> | |s| == 32 witness seq(32, _ => 0 as bv8)

  /** The derived, never stored, state of the campaign. */
  datatype Status = FundingPeriod | Successful | Failed

  /** The three ways an endpoint can abort. */
  datatype Error = CannotFundAfterDeadline | CannotClaimBeforeDeadline | OnlyOwnerCanClaim

  /** The message each error carries. */
  function Message(e: Error): (m: string)
    ensures e == CannotFundAfterDeadline ==> m == "cannot fund after deadline"
    ensures e == CannotClaimBeforeDeadline ==> m == "cannot claim before deadline"
    ensures e == OnlyOwnerCanClaim ==> m == "only owner can claim successful funding"
  {
    match e
    case CannotFundAfterDeadline => "cannot fund after deadline"
    case CannotClaimBeforeDeadline => "cannot claim before deadline"
    case OnlyOwnerCanClaim => "only owner can claim successful funding"
  }

  /** The result of an endpoint: success, or an error that aborts the call. */
  datatype Outcome = Ok | Err(error: Error)

  /** One `send().direct` of EGLD (token nonce 0, memo "claim"). */
  datatype Transfer = Transfer(to: Addr, amount: nat)

  /** What the host reports during one call: the block nonce (the contract's
      notion of time), the caller, the owner address and the contract balance. */
  datatype Host = Host(nonce: U64, caller: Addr, owner: Addr, balance: nat)

  /** What one endpoint call does: its outcome, the deposit slots afterwards
      and the transfers it asks the host to make, in order. */
  datatype Effect = Effect(outcome: Outcome, deposit: map<Addr, nat>, sent: seq<Transfer>)

  /** Reading the slot `deposit[donor]`: an empty slot reads as zero. */
  function DepositOf(deposit: map<Addr, nat>, donor: Addr): (amount: nat)
    ensures donor in deposit ==> amount == deposit[donor]
    ensures donor !in deposit ==> amount == 0
  {
    if donor in deposit then deposit[donor] else 0
  }

  /** `get_current_funds`: the balance the host holds for the contract, which
      is not derived from the deposit slots. */
  function CurrentFunds(host: Host): (funds: nat)
    ensures funds == host.balance
  {
    host.balance
  }

  /** `status`: a pure derivation from the nonce, the balance, the target and
      the deadline. Funding period up to and including the deadline, then
      success exactly when the balance reaches the target. */
  function StatusAt(host: Host, target: nat, deadline: U64): (s: Status)
    ensures s == FundingPeriod <==> host.nonce <= deadline
    ensures s == Successful <==> deadline < host.nonce && target <= CurrentFunds(host)
    ensures s == Failed <==> deadline < host.nonce && CurrentFunds(host) < target
  {
    if host.nonce <= deadline then FundingPeriod
    else if CurrentFunds(host) >= target then Successful
    else Failed
  }

  /** The condition that `fund` requires, exactly as written: `require!` aborts
      when its condition is false, so this accepts a payment only AFTER the
      deadline, although the error message says the opposite. */
  function FundGuard(nonce: U64, deadline: U64): (accepts: bool)
    ensures accepts <==> deadline < nonce
  {
    nonce > deadline
  }

  /** The in-place `update` of `deposit[donor]` by `payment`. */
  function Credit(deposit: map<Addr, nat>, donor: Addr, payment: nat): (m: map<Addr, nat>)
    ensures DepositOf(m, donor) == DepositOf(deposit, donor) + payment
    ensures forall d :: d != donor ==> DepositOf(m, d) == DepositOf(deposit, d)
  {
    deposit[donor := DepositOf(deposit, donor) + payment]
  }

  /** The `clear` of `deposit[donor]`: the slot is emptied and reads as zero. */
  function Clear(deposit: map<Addr, nat>, donor: Addr): (m: map<Addr, nat>)
    ensures DepositOf(m, donor) == 0
    ensures forall d :: d != donor ==> DepositOf(m, d) == DepositOf(deposit, d)
  {
    deposit - {donor}
  }

  /** `fund` as a function of the deadline, the deposit slots, the host and
      the attached payment. */
  function FundEffect(deadline: U64, deposit: map<Addr, nat>, host: Host, payment: nat): (e: Effect)
    ensures e.sent == []
    ensures e.outcome == Ok <==> deadline < host.nonce
    ensures e.outcome != Ok ==> e.outcome == Err(CannotFundAfterDeadline) && e.deposit == deposit
    ensures e.outcome == Ok ==>
      DepositOf(e.deposit, host.caller) == DepositOf(deposit, host.caller) + payment &&
      forall d :: d != host.caller ==> DepositOf(e.deposit, d) == DepositOf(deposit, d)
  {
    if !FundGuard(host.nonce, deadline) then Effect(Err(CannotFundAfterDeadline), deposit, [])
    else Effect(Ok, Credit(deposit, host.caller, payment), [])
  }

  /** `claim` as a function of the target, the deadline, the deposit slots and
      the host. */
  function ClaimEffect(target: nat, deadline: U64, deposit: map<Addr, nat>, host: Host): (e: Effect)
    // Before or at the deadline: refused, nothing changes.
    ensures host.nonce <= deadline ==> e == Effect(Err(CannotClaimBeforeDeadline), deposit, [])
    // Target reached: only the owner may claim, and receives the whole balance;
    // the deposit slots are left as they are either way.
    ensures deadline < host.nonce && target <= CurrentFunds(host) ==>
      e.deposit == deposit &&
      if host.caller == host.owner
      then e.outcome == Ok && e.sent == [Transfer(host.owner, CurrentFunds(host))]
      else e.outcome == Err(OnlyOwnerCanClaim) && e.sent == []
    // Target missed: anyone may claim, gets their own deposit back, and their
    // slot is emptied; no other slot moves.
    ensures deadline < host.nonce && CurrentFunds(host) < target ==>
      e.outcome == Ok &&
      DepositOf(e.deposit, host.caller) == 0 &&
      (forall d :: d != host.caller ==> DepositOf(e.deposit, d) == DepositOf(deposit, d)) &&
      e.sent == if DepositOf(deposit, host.caller) > 0
                then [Transfer(host.caller, DepositOf(deposit, host.caller))]
                else []
    // A claim pays at most once, and only its caller; an aborted claim has no effect.
    ensures |e.sent| <= 1 && forall t :: t in e.sent ==> t.to == host.caller
    ensures e.outcome.Err? ==> e.deposit == deposit && e.sent == []
  {
    match StatusAt(host, target, deadline)
    case FundingPeriod =>
      Effect(Err(CannotClaimBeforeDeadline), deposit, [])
    case Successful =>
      if host.caller != host.owner then Effect(Err(OnlyOwnerCanClaim), deposit, [])
      else Effect(Ok, deposit, [Transfer(host.caller, CurrentFunds(host))])
    case Failed =>
      var amount := DepositOf(deposit, host.caller);
      if amount > 0 then Effect(Ok, Clear(deposit, host.caller), [Transfer(host.caller, amount)])
      else Effect(Ok, deposit, [])
  }

  /** The contract instance: its storage slots and the transfers it has made. */
  class Crowdfunding {
    var target: nat
    var deadline: U64
    var deposit: map<Addr, nat>
    /** Every `send().direct` issued so far, oldest first. */
    ghost var transfers: seq<Transfer>

    /** Deployment: a fresh instance, whose storage slots are all empty (an
        empty slot reads as zero), followed by `init`. */
    constructor (target: nat, deadline: U64)
      ensures this.target == target && this.deadline == deadline
      ensures deposit == map[] && transfers == []
    {
      this.target := 0;
      this.deadline := 0;
      deposit := map[];
      transfers := [];
      new;
      Init(target, deadline);
    }

    /** `init`: writes the `target` and `deadline` slots verbatim and nothing
        else; a zero target or a deadline in the past is accepted, and when it
        runs over an existing instance the deposit slots survive. */
    method Init(target: nat, deadline: U64)
      modifies this`target, this`deadline
      ensures this.target == target && this.deadline == deadline
      ensures deposit == old(deposit) && transfers == old(transfers)
    {
      this.target := target;
      this.deadline := deadline;
    }

    /** The `getDeposit` view. */
    function GetDeposit(donor: Addr): (amount: nat)
      reads this
      ensures donor in deposit ==> amount == deposit[donor]
      ensures donor !in deposit ==> amount == 0
    {
      DepositOf(deposit, donor)
    }

    /** `fund`: the payment attached to the call is added to the caller's slot
        when the guard of `FundGuard` holds. Only `deposit` may change. */
    method Fund(host: Host, payment: nat) returns (r: Outcome)
      modifies this`deposit
      ensures var e := FundEffect(deadline, old(deposit), host, payment);
        r == e.outcome && deposit == e.deposit
    {
      // As written, the call is refused at or before the deadline.
      if !FundGuard(host.nonce, deadline) {
        return Err(CannotFundAfterDeadline);
      }
      var caller := host.caller;
      deposit := deposit[caller := GetDeposit(caller) + payment];
      r := Ok;
    }

    /** `claim`: branches on the status. Only `deposit` and the transfer log
        may change; `target` and `deadline` never do. */
    method Claim(host: Host) returns (r: Outcome)
      modifies this`deposit, this`transfers
      ensures var e := ClaimEffect(target, deadline, old(deposit), host);
        r == e.outcome && deposit == e.deposit && transfers == old(transfers) + e.sent
    {
      match StatusAt(host, target, deadline)
      case FundingPeriod =>
        r := Err(CannotClaimBeforeDeadline);
      case Successful =>
        var caller := host.caller;
        if caller != host.owner {
          return Err(OnlyOwnerCanClaim);
        }
        var scBalance := CurrentFunds(host);
        transfers := transfers + [Transfer(caller, scBalance)];
        r := Ok;
      case Failed =>
        var caller := host.caller;
        var amount := GetDeposit(caller);
        if amount > 0 {
          // The slot is cleared before the refund is sent.
          deposit := Clear(deposit, caller);
          transfers := transfers + [Transfer(caller, amount)];
        }
        r := Ok;
    }
  }

  /** Each error can be told from its message alone. */
  lemma MessageIdentifiesError(a: Error, b: Error)
    requires Message(a) == Message(b)
    ensures a == b
  {
  }

  /** One call of `fund`: the host context and the attached payment. */
  datatype Payment = Payment(host: Host, amount: nat)

  /** The deposit slots after `fund` is called with each of `calls` in turn. */
  function FundAll(deadline: U64, deposit: map<Addr, nat>, calls: seq<Payment>): map<Addr, nat>
    decreases |calls|
  {
    if calls == [] then deposit
    else FundAll(deadline, FundEffect(deadline, deposit, calls[0].host, calls[0].amount).deposit, calls[1..])
  }

  /** The sum of the payments of `donor` among `calls` that `fund` accepts. */
  function PaidBy(deadline: U64, calls: seq<Payment>, donor: Addr): nat
    decreases |calls|
  {
    if calls == [] then 0
    else
      var c := calls[0];
      (if c.host.caller == donor && FundGuard(c.host.nonce, deadline) then c.amount else 0)
      + PaidBy(deadline, calls[1..], donor)
  }

  /** A donor's slot holds what it held before plus exactly the sum of that
      donor's accepted payments. */
  lemma {:induction false} FundAllDeposit(deadline: U64, deposit: map<Addr, nat>, calls: seq<Payment>, donor: Addr)
    ensures DepositOf(FundAll(deadline, deposit, calls), donor) == DepositOf(deposit, donor) + PaidBy(deadline, calls, donor)
    decreases |calls|
  {
    if calls != [] {
      var next := FundEffect(deadline, deposit, calls[0].host, calls[0].amount).deposit;
      FundAllDeposit(deadline, next, calls[1..], donor);
    }
  }

  /** As written, no call of `fund` made at or before the deadline changes any
      slot: funding during the funding period is impossible. */
  lemma {:induction false} NoFundingUpToDeadline(deadline: U64, deposit: map<Addr, nat>, calls: seq<Payment>)
    requires forall i :: 0 <= i < |calls| ==> calls[i].host.nonce <= deadline
    ensures FundAll(deadline, deposit, calls) == deposit
    decreases |calls|
  {
    if calls != [] {
      NoFundingUpToDeadline(deadline, deposit, calls[1..]);
    }
  }

  /** The accepting condition of `fund` is exactly the complement of the
      funding period of `status`: every accepted payment arrives when the
      status is already Successful or Failed. */
  lemma FundAcceptedOnlyAfterFundingPeriod(target: nat, deadline: U64, deposit: map<Addr, nat>, host: Host, payment: nat)
    ensures FundEffect(deadline, deposit, host, payment).outcome == Ok <==> StatusAt(host, target, deadline) != FundingPeriod
  {
  }

  /** Once past the deadline the status never returns to the funding period,
      and with the same balance it stays what it was. */
  lemma StatusSettles(target: nat, deadline: U64, now: Host, later: Host)
    requires now.nonce <= later.nonce
    requires StatusAt(now, target, deadline) != FundingPeriod
    ensures StatusAt(later, target, deadline) != FundingPeriod
    ensures later.balance == now.balance ==> StatusAt(later, target, deadline) == StatusAt(now, target, deadline)
  {
  }

  /** `init` does not validate: with a zero target the campaign can never
      fail once the deadline has passed. */
  lemma ZeroTargetNeverFails(deadline: U64, host: Host)
    ensures StatusAt(host, 0, deadline) != Failed
  {
  }

  /** After a refund, an immediate second claim by the same donor (later or at
      the same nonce, with no more funds held) succeeds and sends nothing. */
  lemma SecondRefundSendsNothing(target: nat, deadline: U64, deposit: map<Addr, nat>, first: Host, second: Host)
    requires StatusAt(first, target, deadline) == Failed
    requires second.caller == first.caller
    requires first.nonce <= second.nonce && second.balance <= first.balance
    ensures var after := ClaimEffect(target, deadline, deposit, first).deposit;
      ClaimEffect(target, deadline, after, second) == Effect(Ok, after, [])
  {
  }

  /** The owner's claim leaves every deposit slot in place. Once the host has
      paid the balance out, a positive target is no longer met, the status turns
      to Failed, and each donor (the owner too, if they donated) may ask the host
      to send back their whole deposit, which the drained contract no longer
      holds. */
  lemma OwnerClaimLeavesRefundsOwed(target: nat, deadline: U64, deposit: map<Addr, nat>, owner: Host, donor: Host)
    requires 0 < target
    requires StatusAt(owner, target, deadline) == Successful && owner.caller == owner.owner
    requires owner.nonce <= donor.nonce && donor.balance == 0
    requires DepositOf(deposit, donor.caller) > 0
    ensures var drained := ClaimEffect(target, deadline, deposit, owner);
      drained.deposit == deposit &&
      drained.sent == [Transfer(owner.owner, owner.balance)] &&
      StatusAt(donor, target, deadline) == Failed &&
      ClaimEffect(target, deadline, drained.deposit, donor).sent == [Transfer(donor.caller, DepositOf(deposit, donor.caller))]
  {
  }
}
