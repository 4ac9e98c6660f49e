/** Refunding tickets, for a whole expired raffle or for one dispute, keeps the market invariant. */
module RefundKeeps {
  import opened BookSteps
  import opened DisputeMath
  import opened Journal
  import opened Ledger
  import opened LifecycleKeeps
  import opened Market
  import opened MarketInvariant
  import opened RaffleInvariant
  import opened Raffles
  import opened Tickets
  import opened Wrappers

  // ----- One credit per buyer -----

  ghost predicate NoRepeats(s: seq<nat>) {
    forall i, j :: 0 <= i < j < |s| ==> s[i] != s[j]
  }

  lemma {:induction false} PaidBuyersAreTheBuyers(tickets: seq<Ticket>)
    ensures NoRepeats(PaidBuyers(tickets))
    ensures forall b: nat :: b in PaidBuyers(tickets) <==> ActiveCount(tickets, b) > 0
    ensures forall b: nat :: b !in PaidBuyers(tickets) ==> PaidBy(tickets, b) == 0
  {
    if |tickets| > 0 {
      PaidBuyersAreTheBuyers(tickets[..|tickets| - 1]);
    }
  }

  function SumOver(buyers: seq<nat>, tickets: seq<Ticket>): nat {
    if |buyers| == 0 then 0
    else SumOver(buyers[..|buyers| - 1], tickets) + PaidBy(tickets, buyers[|buyers| - 1])
  }

  /** One more ticket adds its price to the total of the buyers that include its buyer. */
  lemma {:induction false} SumOverOneMore(buyers: seq<nat>, tickets: seq<Ticket>)
    requires |tickets| > 0 && NoRepeats(buyers)
    ensures var last := tickets[|tickets| - 1];
            SumOver(buyers, tickets)
            == SumOver(buyers, tickets[..|tickets| - 1]) + (if last.buyer in buyers && !last.refunded then last.price else 0)
  {
    if |buyers| > 0 {
      SumOverOneMore(buyers[..|buyers| - 1], tickets);
    }
  }

  /** The credits to the buyers add up to the single debit of the seller. */
  lemma {:induction false} GroupsCoverTotal(tickets: seq<Ticket>)
    ensures SumOver(PaidBuyers(tickets), tickets) == PaidTotal(tickets)
  {
    if |tickets| > 0 {
      var front := tickets[..|tickets| - 1];
      var last := tickets[|tickets| - 1];
      GroupsCoverTotal(front);
      PaidBuyersAreTheBuyers(front);
      SumOverOneMore(PaidBuyers(front), tickets);
      var buyers := PaidBuyers(tickets);
      if !last.refunded && last.buyer !in PaidBuyers(front) {
        assert buyers[..|buyers| - 1] == PaidBuyers(front) && buyers[|buyers| - 1] == last.buyer;
        assert PaidBy(tickets, last.buyer) == PaidBy(front, last.buyer) + last.price;
      } else {
        assert buyers == PaidBuyers(front);
      }
    }
  }

  function DueIfListed(buyers: seq<nat>, tickets: seq<Ticket>, b: nat): int {
    if b in buyers then PaidBy(tickets, b) else 0
  }

  ghost predicate BuyersRefunded(before: seq<Entry>, after: seq<Entry>, i: nat, tickets: seq<Ticket>, buyers: seq<nat>) {
    && OthersKept(before, after, i)
    && Balance(after, PayoutNet(i)) == Balance(before, PayoutNet(i))
    && Balance(after, PayoutDebits(i)) == Balance(before, PayoutDebits(i))
    && Balance(after, DisputeRefunds(i)) == Balance(before, DisputeRefunds(i))
    && (forall b: nat ::
          Balance(after, RefundTo(i, b)) == Balance(before, RefundTo(i, b)) + DueIfListed(buyers, tickets, b))
    && Balance(after, Everything) == Balance(before, Everything) + SumOver(buyers, tickets)
  }

  lemma OneMoreBuyer(before: seq<Entry>, mid: seq<Entry>, e: Entry, i: nat, tickets: seq<Ticket>, buyers: seq<nat>)
    requires |buyers| > 0 && NoRepeats(buyers)
    requires BuyersRefunded(before, mid, i, tickets, buyers[..|buyers| - 1])
    requires EntryIs(e, buyers[|buyers| - 1], TicketPurchaseRefund, PaidBy(tickets, buyers[|buyers| - 1]), OnRaffle(i))
    ensures BuyersRefunded(before, mid + [e], i, tickets, buyers)
  {
    LocalEntry(mid, e, i);
    OthersKeptTwice(before, mid, mid + [e], i);
    BalanceAppend(mid, e, PayoutNet(i));
    BalanceAppend(mid, e, PayoutDebits(i));
    BalanceAppend(mid, e, DisputeRefunds(i));
    EverythingAppend(mid, e);
    var last := |buyers| - 1;
    forall b: nat
      ensures Balance(mid + [e], RefundTo(i, b)) == Balance(before, RefundTo(i, b)) + DueIfListed(buyers, tickets, b)
    {
      BalanceAppend(mid, e, RefundTo(i, b));
      ListedStep(buyers, b);
    }
  }

  lemma ListedStep(buyers: seq<nat>, b: nat)
    requires |buyers| > 0 && NoRepeats(buyers)
    ensures b in buyers <==> b in buyers[..|buyers| - 1] || b == buyers[|buyers| - 1]
    ensures b == buyers[|buyers| - 1] ==> b !in buyers[..|buyers| - 1]
  {
    assert buyers == buyers[..|buyers| - 1] + [buyers[|buyers| - 1]];
  }

  lemma {:induction false} RefundBuyersPosts(b: Books, i: nat, tickets: seq<Ticket>, buyers: seq<nat>)
    requires Kept(b) && NoRepeats(buyers) && RefundBuyers(b, i, tickets, buyers).Success?
    ensures var after := RefundBuyers(b, i, tickets, buyers).value;
            && Kept(after) && |after.wallets| == |b.wallets|
            && BuyersRefunded(b.entries, after.entries, i, tickets, buyers)
  {
    if |buyers| > 0 {
      var last := |buyers| - 1;
      RefundBuyersPosts(b, i, tickets, buyers[..last]);
      var mid := RefundBuyers(b, i, tickets, buyers[..last]).value;
      var e := CreditUserPosts(mid, buyers[last], PaidBy(tickets, buyers[last]), TicketPurchaseRefund, OnRaffle(i));
      OneMoreBuyer(b.entries, mid.entries, e, i, tickets, buyers);
    }
  }

  /** Every buyer was given back what was paid, the seller gave up the total, and in sum no money moved. */
  ghost predicate EverybodyRefunded(before: seq<Entry>, after: seq<Entry>, i: nat, tickets: seq<Ticket>) {
    && OthersKept(before, after, i)
    && Balance(after, PayoutNet(i)) == Balance(before, PayoutNet(i))
    && Balance(after, PayoutDebits(i)) == Balance(before, PayoutDebits(i))
    && Balance(after, DisputeRefunds(i)) == Balance(before, DisputeRefunds(i))
    && (forall u: nat :: Balance(after, RefundTo(i, u)) == Balance(before, RefundTo(i, u)) + PaidBy(tickets, u))
    && Balance(after, Everything) == Balance(before, Everything)
  }

  lemma RefundAllPosts(b: Books, i: nat, seller: nat, tickets: seq<Ticket>)
    requires Kept(b) && RefundAllBooks(b, i, seller, tickets).Success?
    ensures var after := RefundAllBooks(b, i, seller, tickets).value;
            && Kept(after) && |after.wallets| == |b.wallets|
            && EverybodyRefunded(b.entries, after.entries, i, tickets)
  {
    var buyers := PaidBuyers(tickets);
    PaidBuyersAreTheBuyers(tickets);
    RefundBuyersPosts(b, i, tickets, buyers);
    var mid := RefundBuyers(b, i, tickets, buyers).value;
    if PaidTotal(tickets) > 0 {
      var context := Context(Some(i), None, None, TicketRefund);
      var e := DebitSellerPosts(mid, seller, PaidTotal(tickets), context);
      SellerDebitEntry(b.entries, mid.entries, e, i, tickets);
    } else {
      NothingToDebit(b.entries, mid.entries, i, tickets);
    }
  }

  lemma NothingToDebit(before: seq<Entry>, mid: seq<Entry>, i: nat, tickets: seq<Ticket>)
    requires BuyersRefunded(before, mid, i, tickets, PaidBuyers(tickets)) && PaidTotal(tickets) == 0
    ensures EverybodyRefunded(before, mid, i, tickets)
  {
    PaidBuyersAreTheBuyers(tickets);
    GroupsCoverTotal(tickets);
  }

  lemma SellerDebitEntry(before: seq<Entry>, mid: seq<Entry>, e: Entry, i: nat, tickets: seq<Ticket>)
    requires BuyersRefunded(before, mid, i, tickets, PaidBuyers(tickets))
    requires e.kind == SellerPayableDebit && e.context == Context(Some(i), None, None, TicketRefund)
    requires e.amount + PaidTotal(tickets) == 0
    ensures EverybodyRefunded(before, mid + [e], i, tickets)
  {
    PaidBuyersAreTheBuyers(tickets);
    GroupsCoverTotal(tickets);
    LocalEntry(mid, e, i);
    OthersKeptTwice(before, mid, mid + [e], i);
    BalanceAppend(mid, e, PayoutNet(i));
    BalanceAppend(mid, e, PayoutDebits(i));
    BalanceAppend(mid, e, DisputeRefunds(i));
    EverythingAppend(mid, e);
    forall u: nat ensures Balance(mid + [e], RefundTo(i, u)) == Balance(mid, RefundTo(i, u)) {
      BalanceAppend(mid, e, RefundTo(i, u));
    }
  }

  // ----- Expired raffles -----

  lemma {:induction false} MarkAllSums(tickets: seq<Ticket>, ids: set<nat>, b: nat)
    requires forall k: nat :: k < |tickets| && !tickets[k].refunded ==> k in ids
    ensures RefundedBy(Marked(tickets, ids), b) == RefundedBy(tickets, b) + PaidBy(tickets, b)
    ensures AllRefunded(Marked(tickets, ids))
  {
    if |tickets| > 0 {
      var last := |tickets| - 1;
      assert Marked(tickets, ids)[..last] == Marked(tickets[..last], ids);
      MarkAllSums(tickets[..last], ids, b);
    }
  }

  function CancelledRow(r: Raffle): Raffle {
    r.(tickets := Marked(r.tickets, AllPaid(r.tickets)), status := Cancelled)
  }

  lemma CancelledRowFacts(rate: real, r: Raffle)
    requires RowFacts(rate, r) && r.status == Active
    ensures RowFacts(rate, CancelledRow(r))
    ensures Held(CancelledRow(r)) == Held(r)
  {
    MarkingKeepsLimits(r.tickets, r.total, AllPaid(r.tickets));
    forall b: nat ensures BoughtBy(Marked(r.tickets, AllPaid(r.tickets)), b) == BoughtBy(r.tickets, b) {
      MarkedSums(r.tickets, AllPaid(r.tickets), b);
    }
    MarkAllSums(r.tickets, AllPaid(r.tickets), 0);
  }

  lemma CancelAndRefundKeeps(d: Db, i: nat)
    requires Inv(d) && i < |d.raffles| && d.raffles[i].status == Active
    ensures Inv(CancelAndRefund(d, i).db)
  {
    if RefundTickets(d, i).error.None? {
      CancelledMoney(d, i);
      CancelResult(d, i);
    }
  }

  lemma CancelResult(d: Db, i: nat)
    requires i < |d.raffles| && RefundTickets(d, i).error.None?
    ensures var r := d.raffles[i];
            && RefundAllBooks(d.books, i, r.seller, r.tickets).Success?
            && CancelAndRefund(d, i).db
               == SetRaffle(d, i, CancelledRow(r)).(books := RefundAllBooks(d.books, i, r.seller, r.tickets).value, txs := d.txs)
  {
  }

  lemma CancelledMoney(d: Db, i: nat)
    requires Inv(d) && i < |d.raffles| && d.raffles[i].status == Active
    requires RefundAllBooks(d.books, i, d.raffles[i].seller, d.raffles[i].tickets).Success?
    ensures var r := d.raffles[i];
            Inv(SetRaffle(d, i, CancelledRow(r)).(books := RefundAllBooks(d.books, i, r.seller, r.tickets).value, txs := d.txs))
  {
    RowOf(d, i);
    var r := d.raffles[i];
    RefundAllPosts(d.books, i, r.seller, r.tickets);
    var books := RefundAllBooks(d.books, i, r.seller, r.tickets).value;
    CancelledRowFacts(d.config.feeRate, r);
    CancelledRowBooked(d.books.entries, books.entries, d.txs, i, r);
    LocalNothing(d.txs, i);
    MoneyRow(d, i, CancelledRow(r), books, d.txs);
  }

  lemma LocalNothing(txs: seq<Tx>, i: nat)
    ensures OthersRecorded(txs, txs, i)
  {
  }

  lemma CancelledRowBooked(before: seq<Entry>, after: seq<Entry>, txs: seq<Tx>, i: nat, r: Raffle)
    requires RowBooks(before, txs, i, r) && !DisputeRefunded(r)
    requires EverybodyRefunded(before, after, i, r.tickets)
    ensures RowBooks(after, txs, i, CancelledRow(r))
  {
    forall u: nat ensures Balance(after, RefundTo(i, u)) == RefundDue(CancelledRow(r), u) {
      MarkAllSums(r.tickets, AllPaid(r.tickets), u);
    }
  }

  lemma ProcessExpiredKeeps(d: Db, i: nat, pick: nat, now: Time, fault: Fault)
    requires Inv(d)
    ensures Inv(ProcessExpired(d, i, pick, now, fault).db)
  {
    if i < |d.raffles| && Expires(d.raffles[i], now) {
      DrawIfEligibleKeeps(d, i, pick, now, fault);
      if d.raffles[i].status == Active {
        CancelAndRefundKeeps(d, i);
      }
    }
  }

  // ----- Disputes -----

  function RefundedRow(r: Raffle, ids: set<nat>, decision: Decision, split: Split, now: Time): Raffle
    requires r.dispute.Some?
  {
    CloseDispute(r.(tickets := Marked(r.tickets, ids)), decision, split, now)
  }

  lemma ClosedRowFacts(rate: real, r: Raffle, ids: set<nat>, decision: Decision, split: Split, now: Time)
    requires RowFacts(rate, r) && DisputeActive(r)
    requires 0 <= split.refund <= PaidBy(r.tickets, r.dispute.value.reporter) + 1
    requires decision == ForSeller ==> split.refund == 0
    requires split.refund == 0 ==> ids == {}
    ensures RowFacts(rate, RefundedRow(r, ids, decision, split, now))
    ensures Held(RefundedRow(r, ids, decision, split, now)) == Held(r)
  {
    MarkingKeepsLimits(r.tickets, r.total, ids);
    var buyer := r.dispute.value.reporter;
    MarkedSums(r.tickets, ids, buyer);
    BoughtIsPaidPlusRefunded(r.tickets, buyer);
    if split.refund == 0 {
      assert Marked(r.tickets, ids) == r.tickets;
    }
  }

  lemma ClosedRowKnown(r: Raffle, ids: set<nat>, decision: Decision, split: Split, now: Time, users: nat)
    requires RowKnown(r, users) && r.dispute.Some?
    ensures RowKnown(RefundedRow(r, ids, decision, split, now), users)
  {
    var marked := Marked(r.tickets, ids);
    forall k | 0 <= k < |marked| ensures marked[k].buyer < users {
      assert r.tickets[k].buyer < users;
    }
  }

  lemma DisputeBooksPost(b: Books, i: nat, buyer: nat, seller: nat, cents: int) returns (e1: Entry, e2: Entry)
    requires Kept(b) && DisputeBooks(b, i, buyer, seller, cents).Success?
    ensures var after := DisputeBooks(b, i, buyer, seller, cents).value;
            && Kept(after) && |after.wallets| == |b.wallets|
            && after.entries == b.entries + [e1] + [e2]
    ensures var context := Context(Some(i), None, None, DisputeResolution);
            && EntryIs(e1, buyer, TicketPurchaseRefund, cents, context)
            && EntryIs(e2, seller, SellerPayableDebit, -cents, context)
  {
    var context := Context(Some(i), None, None, DisputeResolution);
    e1 := CreditUserPosts(b, buyer, cents, TicketPurchaseRefund, context);
    var credited := CreditUser(b, buyer, cents, TicketPurchaseRefund, context).value;
    e2 := DebitSellerPosts(credited, seller, cents, context);
  }

  /** The credit of a dispute refund is the only ticket refund of its raffle. */
  lemma DisputeEntriesBooked(entries: seq<Entry>, txs: seq<Tx>, i: nat, r: Raffle, closed: Raffle, e1: Entry, e2: Entry, cents: int)
    requires RowBooks(entries, txs, i, r) && !DisputeRefunded(r) && cents > 0
    requires forall u: nat :: RefundDue(r, u) == 0
    requires EntryIs(e1, e1.user, TicketPurchaseRefund, cents, Context(Some(i), None, None, DisputeResolution))
    requires EntryIs(e2, e2.user, SellerPayableDebit, -cents, Context(Some(i), None, None, DisputeResolution))
    requires closed.payout == r.payout && closed.releasedAt == r.releasedAt
    requires closed.dispute.Some? && closed.dispute.value.refund == cents && closed.dispute.value.reporter == e1.user
    ensures RowBooks(entries + [e1] + [e2], txs, i, closed)
  {
    BalanceAppend(entries, e1, PayoutNet(i));
    BalanceAppend(entries, e1, PayoutDebits(i));
    BalanceAppend(entries, e1, DisputeRefunds(i));
    forall u: nat ensures Balance(entries + [e1], RefundTo(i, u)) == RefundDue(closed, u) {
      BalanceAppend(entries, e1, RefundTo(i, u));
    }
    NeutralEntry(entries + [e1], txs, i, closed, e2);
  }

  lemma TwoDisputeEntries(entries: seq<Entry>, e1: Entry, e2: Entry, i: nat)
    requires LocalTo(e1.context, i) && LocalTo(e2.context, i) && e1.amount == -e2.amount
    ensures OthersKept(entries, entries + [e1] + [e2], i)
    ensures Balance(entries + [e1] + [e2], Everything) == Balance(entries, Everything)
  {
    LocalEntry(entries, e1, i);
    LocalEntry(entries + [e1], e2, i);
    OthersKeptTwice(entries, entries + [e1], entries + [e1] + [e2], i);
    EverythingAppend(entries, e1);
    EverythingAppend(entries + [e1], e2);
  }

  lemma {:induction false} PaidCountCoversBuyer(tickets: seq<Ticket>, b: nat)
    ensures ActiveCount(tickets, b) <= PaidCount(tickets)
  {
    if |tickets| > 0 {
      PaidCountCoversBuyer(tickets[..|tickets| - 1], b);
    }
  }

  lemma NothingRefundedYet(r: Raffle, buyer: nat)
    requires RefundFacts(r) && !DisputeRefunded(r) && ActiveCount(r.tickets, buyer) > 0
    ensures forall u: nat :: RefundDue(r, u) == 0
  {
    PaidCountCoversBuyer(r.tickets, buyer);
    forall u: nat ensures RefundDue(r, u) == 0 {
      UndisputedRefundsAreTotal(r, u);
    }
  }

  lemma RefundResolutionBooked(b: Books, txs: seq<Tx>, i: nat, r: Raffle, closed: Raffle, cents: int)
    requires Kept(b) && RowBooks(b.entries, txs, i, r)
    requires !DisputeRefunded(r) && cents > 0 && r.dispute.Some?
    requires forall u: nat :: RefundDue(r, u) == 0
    requires DisputeBooks(b, i, r.dispute.value.reporter, r.seller, cents).Success?
    requires closed.payout == r.payout && closed.releasedAt == r.releasedAt
    requires closed.dispute.Some? && closed.dispute.value.refund == cents
    requires closed.dispute.value.reporter == r.dispute.value.reporter
    ensures var after := DisputeBooks(b, i, r.dispute.value.reporter, r.seller, cents).value;
            && Kept(after) && |after.wallets| == |b.wallets|
            && OthersKept(b.entries, after.entries, i)
            && RowBooks(after.entries, txs, i, closed)
            && Balance(after.entries, Everything) == Balance(b.entries, Everything)
  {
    var e1, e2 := DisputeBooksPost(b, i, r.dispute.value.reporter, r.seller, cents);
    DisputeEntriesBooked(b.entries, txs, i, r, closed, e1, e2, cents);
    TwoDisputeEntries(b.entries, e1, e2, i);
  }

  lemma RefundResolutionKeeps(d: Db, i: nat, decision: Decision, split: Split, ids: set<nat>, now: Time)
    requires Inv(d) && i < |d.raffles| && DisputeActive(d.raffles[i])
    requires var r := d.raffles[i];
             var buyer := r.dispute.value.reporter;
             && 0 < split.refund <= PaidBy(r.tickets, buyer) + 1
             && decision != ForSeller
             && ActiveCount(r.tickets, buyer) > 0
             && DisputeBooks(d.books, i, buyer, r.seller, split.refund).Success?
    ensures var r := d.raffles[i];
            var books := DisputeBooks(d.books, i, r.dispute.value.reporter, r.seller, split.refund).value;
            Inv(SetRaffle(d, i, RefundedRow(r, ids, decision, split, now)).(books := books, txs := d.txs))
  {
    RowOf(d, i);
    var r := d.raffles[i];
    var buyer := r.dispute.value.reporter;
    var closed := RefundedRow(r, ids, decision, split, now);
    NothingRefundedYet(r, buyer);
    RefundResolutionBooked(d.books, d.txs, i, r, closed, split.refund);
    ClosedRowFacts(d.config.feeRate, r, ids, decision, split, now);
    ClosedRowKnown(r, ids, decision, split, now, |d.books.wallets|);
    LocalNothing(d.txs, i);
    MoneyRow(d, i, closed, DisputeBooks(d.books, i, buyer, r.seller, split.refund).value, d.txs);
  }

  lemma PlainResolutionKeeps(d: Db, i: nat, decision: Decision, split: Split, now: Time)
    requires Inv(d) && i < |d.raffles| && DisputeActive(d.raffles[i])
    requires split.refund == 0
    ensures Inv(SetRaffle(d, i, CloseDispute(d.raffles[i], decision, split, now)))
  {
    RowOf(d, i);
    var r := d.raffles[i];
    ClosedRowFacts(d.config.feeRate, r, {}, decision, split, now);
    assert Marked(r.tickets, {}) == r.tickets;
    ReplaceRow(d, i, CloseDispute(r, decision, split, now));
  }

  lemma ResolveKeeps(d: Db, i: nat, decision: Decision, refund: Option<real>, seller: Option<real>, now: Time)
    requires Inv(d)
    ensures Inv(Resolve(d, i, decision, refund, seller, now).db)
  {
    if i < |d.raffles| && DisputeActive(d.raffles[i]) {
      var r := d.raffles[i];
      var buyer := r.dispute.value.reporter;
      var amounts := SplitAmounts(decision, PaidBy(r.tickets, buyer), refund, seller);
      if amounts.Success? {
        SplitWithinPaid(decision, PaidBy(r.tickets, buyer), refund, seller);
        if amounts.value.refund == 0 {
          PlainResolutionKeeps(d, i, decision, amounts.value, now);
        } else if DisputeRefund(d, i, buyer, amounts.value.refund).error.None? {
          ResolveResult(d, i, decision, refund, seller, now);
          var ids := Members(RefundedPositions(r.tickets, buyer, amounts.value.refund));
          RefundResolutionKeeps(d, i, decision, amounts.value, ids, now);
        }
      }
    }
  }

  /** The two row updates of a resolution with a refund amount to one. */
  lemma ResolveResult(d: Db, i: nat, decision: Decision, refund: Option<real>, seller: Option<real>, now: Time)
    requires i < |d.raffles| && DisputeActive(d.raffles[i])
    requires var paid := PaidBy(d.raffles[i].tickets, d.raffles[i].dispute.value.reporter);
             && SplitAmounts(decision, paid, refund, seller).Success?
             && var split := SplitAmounts(decision, paid, refund, seller).value;
             && split.refund > 0
             && DisputeRefund(d, i, d.raffles[i].dispute.value.reporter, split.refund).error.None?
    ensures var r := d.raffles[i];
            var buyer := r.dispute.value.reporter;
            var split := SplitAmounts(decision, PaidBy(r.tickets, buyer), refund, seller).value;
            && ActiveCount(r.tickets, buyer) > 0
            && DisputeBooks(d.books, i, buyer, r.seller, split.refund).Success?
            && var ids := Members(RefundedPositions(r.tickets, buyer, split.refund));
            && Resolve(d, i, decision, refund, seller, now).error.None?
            && Resolve(d, i, decision, refund, seller, now).db
               == SetRaffle(d, i, RefundedRow(r, ids, decision, split, now)).(
                  books := DisputeBooks(d.books, i, buyer, r.seller, split.refund).value, txs := d.txs)
  {
  }

  lemma AutoRefundKeeps(d: Db, i: nat, now: Time)
    requires Inv(d)
    ensures Inv(AutoRefund(d, i, now).db)
  {
    if i < |d.raffles| && TimesOut(d.raffles[i], now) {
      var paid := PaidBy(d.raffles[i].tickets, d.raffles[i].dispute.value.reporter);
      ResolveKeeps(d, i, ForBuyer, Some(paid as real), Some(0.0), now);
    }
  }
}
