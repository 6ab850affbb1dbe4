/** Whole campaigns driven through the contract object, with target 1000 and
    deadline 100. They show what the guard of `fund` as written means for a
    campaign: payments are only accepted once the deadline has passed.

    The host balance passed to a `fund` call already includes the payment
    attached to it, as the host credits it before the contract runs. */
module Scenarios {
  import opened Crowdfunding

  const Donor: Addr := seq(32, _ => 1 as bv8)
  const Owner: Addr := seq(32, _ => 2 as bv8)

  /** A donor pays 400 before the deadline (refused) and again after it
      (accepted); with 400 held the campaign has failed, and the donor's claim
      empties their slot and sends the 400 back to them. */
  method FailedCampaign() returns (early: Outcome, late: Outcome, status: Status, refund: Outcome, left: nat,
                                   ghost sent: seq<Transfer>)
    ensures early == Err(CannotFundAfterDeadline) && Message(early.error) == "cannot fund after deadline"
    ensures late == Ok && status == Failed && refund == Ok && left == 0
    ensures sent == [Transfer(Donor, 400)]
  {
    var c := new Crowdfunding(1000, 100);
    early := c.Fund(Host(50, Donor, Owner, 400), 400);
    late := c.Fund(Host(101, Donor, Owner, 400), 400);
    assert c.GetDeposit(Donor) == 400;
    status := StatusAt(Host(101, Donor, Owner, 400), c.target, c.deadline);
    refund := c.Claim(Host(101, Donor, Owner, 400));
    left := c.GetDeposit(Donor);
    sent := c.transfers;
  }

  /** A donor pays 1200 after the deadline; the campaign has succeeded. The
      donor may not claim, the owner may and receives the whole 1200, and the
      donor's slot still reads 1200. */
  method SuccessfulCampaign() returns (byDonor: Outcome, byOwner: Outcome, left: nat, ghost sent: seq<Transfer>)
    ensures byDonor == Err(OnlyOwnerCanClaim) && Message(byDonor.error) == "only owner can claim successful funding"
    ensures byOwner == Ok && left == 1200
    ensures sent == [Transfer(Owner, 1200)]
  {
    var c := new Crowdfunding(1000, 100);
    var funded := c.Fund(Host(101, Donor, Owner, 1200), 1200);
    assert funded == Ok;
    assert Donor[0] != Owner[0];
    byDonor := c.Claim(Host(102, Donor, Owner, 1200));
    byOwner := c.Claim(Host(102, Owner, Owner, 1200));
    left := c.GetDeposit(Donor);
    sent := c.transfers;
  }
}
