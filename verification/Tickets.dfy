/** The tickets of one raffle: who bought which number, at what price, and which were refunded. */
module Tickets {
  import opened TicketSelection

  datatype Ticket = Ticket(number: int, buyer: nat, price: nat, refunded: bool)

  function Numbers(tickets: seq<Ticket>): seq<int> {
    seq(|tickets|, i requires 0 <= i < |tickets| => tickets[i].number)
  }

  function UsedNumbers(tickets: seq<Ticket>): set<int> {
    set t | t in tickets :: t.number
  }

  function If(condition: bool, amount: nat): nat {
    if condition then amount else 0
  }

  /** Tickets a buyer holds that were not refunded. */
  function ActiveCount(tickets: seq<Ticket>, buyer: nat): nat {
    if |tickets| == 0 then 0
    else
      var t := tickets[|tickets| - 1];
      ActiveCount(tickets[..|tickets| - 1], buyer) + If(t.buyer == buyer && !t.refunded, 1)
  }

  function PaidCount(tickets: seq<Ticket>): nat {
    if |tickets| == 0 then 0
    else PaidCount(tickets[..|tickets| - 1]) + If(!tickets[|tickets| - 1].refunded, 1)
  }

  /** Total price of the tickets of one buyer that were not refunded. */
  function PaidBy(tickets: seq<Ticket>, buyer: nat): nat {
    if |tickets| == 0 then 0
    else
      var t := tickets[|tickets| - 1];
      PaidBy(tickets[..|tickets| - 1], buyer) + If(t.buyer == buyer && !t.refunded, t.price)
  }

  function PaidTotal(tickets: seq<Ticket>): nat {
    if |tickets| == 0 then 0
    else
      var t := tickets[|tickets| - 1];
      PaidTotal(tickets[..|tickets| - 1]) + If(!t.refunded, t.price)
  }

  /** Total price of everything a buyer ever bought. */
  function BoughtBy(tickets: seq<Ticket>, buyer: nat): nat {
    if |tickets| == 0 then 0
    else
      var t := tickets[|tickets| - 1];
      BoughtBy(tickets[..|tickets| - 1], buyer) + If(t.buyer == buyer, t.price)
  }

  /** Total price of the tickets of one buyer that were marked as refunded. */
  function RefundedBy(tickets: seq<Ticket>, buyer: nat): nat {
    if |tickets| == 0 then 0
    else
      var t := tickets[|tickets| - 1];
      RefundedBy(tickets[..|tickets| - 1], buyer) + If(t.buyer == buyer && t.refunded, t.price)
  }

  lemma {:induction false} BoughtIsPaidPlusRefunded(tickets: seq<Ticket>, buyer: nat)
    ensures BoughtBy(tickets, buyer) == PaidBy(tickets, buyer) + RefundedBy(tickets, buyer)
  {
    if |tickets| > 0 {
      BoughtIsPaidPlusRefunded(tickets[..|tickets| - 1], buyer);
    }
  }

  // ----- Limits -----

  /** Numbers are different, within the raffle, and no buyer holds more than half of them. */
  ghost predicate WithinLimits(tickets: seq<Ticket>, total: nat) {
    && Distinct(Numbers(tickets))
    && (forall k :: 0 <= k < |tickets| ==> 1 <= tickets[k].number <= total && tickets[k].price > 0)
    && (forall b: nat :: ActiveCount(tickets, b) <= total / 2)
  }

  /** Distinct numbers: as many used numbers as tickets. */
  lemma {:induction false} UsedCount(tickets: seq<Ticket>)
    requires Distinct(Numbers(tickets))
    ensures |UsedNumbers(tickets)| == |tickets|
  {
    if |tickets| > 0 {
      var last := |tickets| - 1;
      var front := tickets[..last];
      forall i, j | 0 <= i < j < |front| ensures Numbers(front)[i] != Numbers(front)[j] {
        assert Numbers(front)[i] == Numbers(tickets)[i];
        assert Numbers(front)[j] == Numbers(tickets)[j];
      }
      UsedCount(front);
      var n := tickets[last].number;
      forall t | t in front ensures t.number != n {
        var i :| 0 <= i < |front| && front[i] == t;
        assert Numbers(tickets)[i] != Numbers(tickets)[last];
      }
      assert tickets == front + [tickets[last]];
      assert UsedNumbers(tickets) == UsedNumbers(front) + {n};
    } else {
      assert UsedNumbers(tickets) == {};
    }
  }

  /** The free numbers are exactly as many as the stock the seller's page reports. */
  lemma FreeStock(tickets: seq<Ticket>, total: nat)
    requires WithinLimits(tickets, total)
    ensures |Available(UsedNumbers(tickets), total)| == total - |tickets|
  {
    UsedCount(tickets);
    forall n | n in UsedNumbers(tickets) ensures 1 <= n <= total {
      var t :| t in tickets && t.number == n;
      var i :| 0 <= i < |tickets| && tickets[i] == t;
    }
    AvailableCount(UsedNumbers(tickets), total);
  }

  // ----- Buying -----

  function Issued(numbers: seq<int>, buyer: nat, price: nat): seq<Ticket> {
    seq(|numbers|, i requires 0 <= i < |numbers| => Ticket(numbers[i], buyer, price, false))
  }

  function Bought(tickets: seq<Ticket>, numbers: seq<int>, buyer: nat, price: nat): seq<Ticket> {
    tickets + Issued(numbers, buyer, price)
  }

  lemma {:induction false} BoughtCount(tickets: seq<Ticket>, numbers: seq<int>, buyer: nat, price: nat, b: nat)
    ensures ActiveCount(Bought(tickets, numbers, buyer, price), b)
         == ActiveCount(tickets, b) + If(b == buyer, |numbers|)
    decreases |numbers|
  {
    var all := Bought(tickets, numbers, buyer, price);
    if |numbers| == 0 {
      assert all == tickets;
    } else {
      var last := |numbers| - 1;
      assert all[..|all| - 1] == Bought(tickets, numbers[..last], buyer, price);
      BoughtCount(tickets, numbers[..last], buyer, price, b);
    }
  }

  lemma {:induction false} BoughtSums(tickets: seq<Ticket>, numbers: seq<int>, buyer: nat, price: nat, b: nat)
    ensures RefundedBy(Bought(tickets, numbers, buyer, price), b) == RefundedBy(tickets, b)
    ensures BoughtBy(Bought(tickets, numbers, buyer, price), b) >= BoughtBy(tickets, b)
    decreases |numbers|
  {
    var all := Bought(tickets, numbers, buyer, price);
    if |numbers| == 0 {
      assert all == tickets;
    } else {
      var last := |numbers| - 1;
      assert all[..|all| - 1] == Bought(tickets, numbers[..last], buyer, price);
      BoughtSums(tickets, numbers[..last], buyer, price, b);
    }
  }

  /** A purchase of free, different numbers that fits the buyer's allowance keeps every limit. */
  lemma PurchaseKeepsLimits(tickets: seq<Ticket>, total: nat, numbers: seq<int>, buyer: nat, price: nat)
    requires WithinLimits(tickets, total) && price > 0
    requires Distinct(numbers)
    requires forall n :: n in numbers ==> 1 <= n <= total && n !in UsedNumbers(tickets)
    requires ActiveCount(tickets, buyer) + |numbers| <= total / 2
    ensures WithinLimits(Bought(tickets, numbers, buyer, price), total)
  {
    var all := Bought(tickets, numbers, buyer, price);
    PurchaseKeepsNumbers(tickets, total, numbers, buyer, price);
    forall b: nat ensures ActiveCount(all, b) <= total / 2 {
      BoughtCount(tickets, numbers, buyer, price, b);
    }
    forall k | 0 <= k < |all| ensures 1 <= all[k].number <= total && all[k].price > 0 {
      if k >= |tickets| {
        var n := numbers[k - |tickets|];
        assert n in numbers;
      }
    }
  }

  lemma PurchaseKeepsNumbers(tickets: seq<Ticket>, total: nat, numbers: seq<int>, buyer: nat, price: nat)
    requires Distinct(Numbers(tickets)) && Distinct(numbers)
    requires forall n :: n in numbers ==> n !in UsedNumbers(tickets)
    ensures Distinct(Numbers(Bought(tickets, numbers, buyer, price)))
  {
    var all := Numbers(Bought(tickets, numbers, buyer, price));
    forall i, j | 0 <= i < j < |all| ensures all[i] != all[j] {
      if j < |tickets| {
        assert all[i] == Numbers(tickets)[i] && all[j] == Numbers(tickets)[j];
      } else {
        var n := numbers[j - |tickets|];
        assert n in numbers;
        if i < |tickets| {
          assert tickets[i] in tickets && all[i] == tickets[i].number;
        } else {
          assert all[i] == numbers[i - |tickets|];
        }
      }
    }
  }

  // ----- Refunding -----

  /** Marking some tickets of a raffle as refunded. */
  function Marked(tickets: seq<Ticket>, ids: set<nat>): (r: seq<Ticket>) {
    seq(|tickets|, i requires 0 <= i < |tickets| =>
      if i in ids then tickets[i].(refunded := true) else tickets[i])
  }

  lemma {:induction false} MarkedSums(tickets: seq<Ticket>, ids: set<nat>, b: nat)
    ensures ActiveCount(Marked(tickets, ids), b) <= ActiveCount(tickets, b)
    ensures BoughtBy(Marked(tickets, ids), b) == BoughtBy(tickets, b)
  {
    if |tickets| > 0 {
      var last := |tickets| - 1;
      assert Marked(tickets, ids)[..last] == Marked(tickets[..last], ids);
      MarkedSums(tickets[..last], ids, b);
    }
  }

  lemma MarkingKeepsLimits(tickets: seq<Ticket>, total: nat, ids: set<nat>)
    requires WithinLimits(tickets, total)
    ensures WithinLimits(Marked(tickets, ids), total)
  {
    assert Numbers(Marked(tickets, ids)) == Numbers(tickets);
    forall b: nat ensures ActiveCount(Marked(tickets, ids), b) <= total / 2 {
      MarkedSums(tickets, ids, b);
    }
  }

  /** The tickets of one buyer that are still paid, oldest first, by position. */
  function PaidPositions(tickets: seq<Ticket>, buyer: nat): seq<nat> {
    if |tickets| == 0 then []
    else
      var last := |tickets| - 1;
      PaidPositions(tickets[..last], buyer)
      + (if tickets[last].buyer == buyer && !tickets[last].refunded then [last] else [])
  }

  lemma {:induction false} PaidPositionsValid(tickets: seq<Ticket>, buyer: nat)
    ensures forall k :: 0 <= k < |PaidPositions(tickets, buyer)| ==>
              var p := PaidPositions(tickets, buyer)[k];
              p < |tickets| && tickets[p].buyer == buyer && !tickets[p].refunded
    ensures forall j, k :: 0 <= j < k < |PaidPositions(tickets, buyer)| ==>
              PaidPositions(tickets, buyer)[j] < PaidPositions(tickets, buyer)[k]
    ensures |PaidPositions(tickets, buyer)| == ActiveCount(tickets, buyer)
  {
    if |tickets| > 0 {
      var last := |tickets| - 1;
      PaidPositionsValid(tickets[..last], buyer);
    }
  }

  function Prices(tickets: seq<Ticket>, positions: seq<nat>): seq<nat>
    requires forall k :: 0 <= k < |positions| ==> positions[k] < |tickets|
  {
    seq(|positions|, k requires 0 <= k < |positions| => tickets[positions[k]].price)
  }

  function Members(positions: seq<nat>): set<nat> {
    set p | p in positions
  }

  /** Every paid ticket, whoever bought it. */
  function AllPaid(tickets: seq<Ticket>): set<nat> {
    set i: nat | i < |tickets| && !tickets[i].refunded
  }

  function PaidIndexes(tickets: seq<Ticket>): seq<nat> {
    if |tickets| == 0 then []
    else
      var last := |tickets| - 1;
      PaidIndexes(tickets[..last]) + (if !tickets[last].refunded then [last] else [])
  }

  lemma {:induction false} PaidIndexesValid(tickets: seq<Ticket>)
    ensures forall k :: 0 <= k < |PaidIndexes(tickets)| ==>
              PaidIndexes(tickets)[k] < |tickets| && !tickets[PaidIndexes(tickets)[k]].refunded
    ensures |PaidIndexes(tickets)| == PaidCount(tickets)
  {
    if |tickets| > 0 {
      PaidIndexesValid(tickets[..|tickets| - 1]);
    }
  }
}
