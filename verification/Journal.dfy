/** The transaction history: the commercial record the ledger has to agree with. */
module Journal {
  import opened Wrappers

  datatype TxKind = TicketPurchase | CreditLoad | SellerPayment | PackSubsidy | PromotionSubsidy

  /** amount is what was charged, loaded, paid or subsidised; net is what the seller keeps of a purchase. */
  datatype Tx = Tx(kind: TxKind, user: nat, amount: int, net: int, raffle: Option<nat>, topUp: Option<nat>)

  datatype Column =
    | Loads(session: nat)            // how many credit loads of a top-up session
    | Loaded(session: nat)
    | SellerPayments(raffle: nat)    // how many payments to the seller of a raffle
    | SellerPaid(raffle: nat)
    | PlatformKept                   // charges of purchases less what their sellers received

  function If(condition: bool, amount: int): int {
    if condition then amount else 0
  }

  function Share(t: Tx, c: Column): int {
    match c
    case Loads(s) => If(t.kind == CreditLoad && t.topUp == Some(s), 1)
    case Loaded(s) => If(t.kind == CreditLoad && t.topUp == Some(s), t.amount)
    case SellerPayments(i) => If(t.kind == SellerPayment && t.raffle == Some(i), 1)
    case SellerPaid(i) => If(t.kind == SellerPayment && t.raffle == Some(i), t.amount)
    case PlatformKept => If(t.kind == TicketPurchase, t.amount - t.net)
  }

  function Sum(txs: seq<Tx>, c: Column): int {
    if |txs| == 0 then 0
    else Sum(txs[..|txs| - 1], c) + Share(txs[|txs| - 1], c)
  }

  lemma SumAppend(txs: seq<Tx>, t: Tx, c: Column)
    ensures Sum(txs + [t], c) == Sum(txs, c) + Share(t, c)
  {
    assert (txs + [t])[..|txs|] == txs;
  }
}
