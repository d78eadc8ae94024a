/** Requests for quotes and bids: the stores and what one call does to them. */
module Market {
  import opened Options
  import opened Workflow
  import Radix

  datatype RFQStatus = OpenRFQ | AwardedRFQ

  /** A request for quotes; its id is its position. */
  datatype RFQ = RFQ(
    buyer: string, budget: int, defaults: seq<MilestoneInput>, status: RFQStatus,
    bid: Option<nat>, provider: string, order: Option<nat>)

  datatype BidStatus = OpenBid | AwardedBid | RejectedBid

  /** A bid; its id is its position. */
  datatype Bid = Bid(rfq: nat, provider: string, quote: int, status: BidStatus, milestones: seq<MilestoneInput>)

  datatype Deadline = NoDeadline | Past | Ahead

  datatype RFQInput = RFQInput(
    buyer: string, title: string, category: string, scope: string, budget: int, deadline: Deadline,
    milestones: seq<MilestoneInput>)

  datatype BidInput = BidInput(
    provider: string, message: string, quote: int, milestones: seq<MilestoneInput>, profileAccepted: bool)

  datatype MarketError =
    | MissingRequiredFields | DeadlineRequired | DeadlineInPast | RFQNotFound | NotOpenForBids | ProfileRejected
    | MilestonesRequired | BidExceedsBudget

  datatype Outcome<T> = Success(value: T) | Failure(error: MarketError)

  function Budget(ms: seq<MilestoneInput>): int {
    if ms == [] then 0 else Budget(ms[..|ms| - 1]) + ms[|ms| - 1].budget
  }

  // ---- The default split ----

  const SMALL_BUDGET := 1000
  const SETUP := 20
  const DELIVERY := 20

  function Figures(digits: seq<nat>): string {
    seq(|digits|, i requires 0 <= i < |digits| => '0' + (digits[i] % 10) as char)
  }

  function Decimal(n: nat): string {
    var digits := Radix.Minimal(n, 10);
    if digits == [] then "0" else Figures(digits)
  }

  function Percent(part: nat, total: nat): nat {
    if total == 0 then 0 else part * 100 / total
  }

  function Phase(id: string, name: string, cents: nat, budget: nat): MilestoneInput {
    MilestoneInput(id, name + " (" + Decimal(Percent(cents, budget)) + "%)", cents, cents)
  }

  function DefaultSplit(budget: int): seq<MilestoneInput> {
    if budget <= 0 then []
    else if budget < SMALL_BUDGET then [MilestoneInput("ms_1", "Execution", budget, budget)]
    else
      var setup, delivery := budget * SETUP / 100, budget * DELIVERY / 100;
      [Phase("ms_1", "Setup", setup, budget), Phase("ms_2", "Execution", budget - setup - delivery, budget),
       Phase("ms_3", "Delivery", delivery, budget)]
  }

  // ---- Requests and bids ----

  function OpenRequest(rfqs: seq<RFQ>, x: RFQInput): Outcome<seq<RFQ>> {
    if x.buyer == "" || x.title == "" || x.category == "" || x.scope == "" || x.budget <= 0
    then Failure(MissingRequiredFields)
    else if x.deadline == NoDeadline then Failure(DeadlineRequired)
    else if x.deadline == Past then Failure(DeadlineInPast)
    else
      var ms := if x.milestones == [] then DefaultSplit(x.budget) else x.milestones;
      Success(rfqs + [RFQ(x.buyer, x.budget, ms, OpenRFQ, None, "", None)])
  }

  /** What a bid offers: its own milestones, or those the request suggests. */
  function Offered(q: RFQ, x: BidInput): seq<MilestoneInput> {
    if x.milestones == [] then q.defaults else x.milestones
  }

  function PlaceBid(rfqs: seq<RFQ>, bids: seq<Bid>, rfq: nat, x: BidInput): Outcome<seq<Bid>> {
    if rfq >= |rfqs| then Failure(RFQNotFound)
    else if rfqs[rfq].status != OpenRFQ then Failure(NotOpenForBids)
    else if x.provider == "" || x.message == "" then Failure(MissingRequiredFields)
    else if !x.profileAccepted then Failure(ProfileRejected)
    else
      var ms := Offered(rfqs[rfq], x);
      if ms == [] then Failure(MilestonesRequired)
      else if Budget(ms) > rfqs[rfq].budget then Failure(BidExceedsBudget)
      else Success(bids + [Bid(rfq, x.provider, if x.quote <= 0 then rfqs[rfq].budget else x.quote, OpenBid, ms)])
  }

  /** An award accepts one bid and rejects every other bid on the same request. */
  function Marked(bids: seq<Bid>, rfq: nat, winner: nat): (marked: seq<Bid>)
    ensures |marked| == |bids|
  {
    seq(|bids|, i requires 0 <= i < |bids| =>
      if bids[i].rfq != rfq then bids[i]
      else bids[i].(status := if i == winner then AwardedBid else RejectedBid))
  }

  // ---- The default split adds up ----

  lemma Share(budget: int, percent: nat)
    requires budget >= 0 && percent <= 100
    ensures 0 <= budget * percent / 100 && budget * percent / 100 * 100 <= budget * percent <= budget * 100
  {
  }

  lemma BudgetOfThree(a: MilestoneInput, b: MilestoneInput, c: MilestoneInput)
    ensures Budget([a, b, c]) == a.budget + b.budget + c.budget
  {
    var one, two, three := [a], [a, b], [a, b, c];
    assert three[..2] == two && two[..1] == one && one[..0] == [];
    assert Budget(two) == Budget(one) + b.budget;
  }

  /** The default split spends exactly the budget, on milestones with distinct ids and no negative
      amounts, each of which may cost as much as it is budgeted for. */
  lemma SplitAddsUp(budget: int)
    requires budget > 0
    ensures var ms := DefaultSplit(budget);
            && ms != [] && Budget(ms) == budget
            && (forall i :: 0 <= i < |ms| ==> 0 <= ms[i].basePrice == ms[i].budget)
            && forall i, j :: 0 <= i < j < |ms| ==> ms[i].id != ms[j].id
  {
    var ms := DefaultSplit(budget);
    if budget < SMALL_BUDGET {
      assert ms[..0] == [];
    } else {
      Share(budget, SETUP);
      Share(budget, DELIVERY);
      BudgetOfThree(ms[0], ms[1], ms[2]);
    }
  }

  /** So a bid that takes the defaults of a request made with the default split is never turned away
      over its milestones, and bids exactly the budget. */
  lemma DefaultBidFits(rfqs: seq<RFQ>, request: RFQInput, bids: seq<Bid>, x: BidInput)
    requires OpenRequest(rfqs, request).Success? && request.milestones == [] && x.milestones == []
    ensures var after := OpenRequest(rfqs, request).value;
            match PlaceBid(after, bids, |rfqs|, x)
            case Success(placed) => |placed| == |bids| + 1 && Budget(placed[|bids|].milestones) == request.budget
            case Failure(e) => e in {MissingRequiredFields, ProfileRejected}
  {
    SplitAddsUp(request.budget);
  }
}
