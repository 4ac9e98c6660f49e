/** The payment service: credit top-ups as provider notices, mock actions and refunds change them. */
module PaymentsService {
  import opened Journal
  import opened Ledger
  import opened Market
  import opened Raffles
  import opened Rounding
  import opened Store
  import opened TopUps
  import opened Wrappers

  /** A notice that is not an approval relabels the session it matches, if it matches one. */
  function Relabelled(d: Db, n: Notice, found: Option<nat>, now: Time): Db {
    if Finds(d, n, found) then SetSession(d, found.value, Updated(d.sessions[found.value], n, now)) else d
  }

  class Payments {
    const db: Database
    const wallet: WalletService

    ghost predicate Valid() {
      wallet.db == db
    }

    constructor (db: Database)
      ensures this.db == db && Valid()
    {
      this.db := db;
      wallet := new WalletService(db);
    }

    method CreateCreditTopUp(user: nat, provider: Provider, reference: nat, orderId: Option<nat>, amount: real)
      returns (error: Option<Rejection>)
      modifies db
      ensures Reply(db.View(), error) == OpenSession(old(db.View()), user, provider, reference, orderId, amount)
    {
      var cents := RoundHalfUp(amount);
      if cents <= 0 {
        return Some(BadAmount);
      }
      if user >= |db.wallets| {
        return Some(NotFound);
      }
      db.sessions := db.sessions + [Opened(user, provider, reference, orderId, cents)];
      return None;
    }

    /** Credit an unprocessed session, mark it approved and record the load: one transaction. */
    method ApproveProviderTopUp(k: nat, n: Notice, now: Time) returns (error: Option<Rejection>)
      requires Valid() && k < |db.sessions|
      modifies db
      ensures Reply(db.View(), error) == ApproveSession(old(db.View()), k, n, now)
    {
      var s := db.sessions[k];
      if s.processedAt.Some? {
        return None;
      }
      var refused := wallet.CreditUserBalance(s.user, n.amount, CreditTopUp, OnSession(k));
      if refused.Some? {
        return Some(BadAmount);
      }
      var order := if n.orderId.Some? then n.orderId else s.orderId;
      db.sessions := db.sessions[k := s.(paymentId := Some(n.paymentId), orderId := order, credited := n.amount,
                                         status := Approved, processedAt := Some(now))];
      db.txs := db.txs + [Tx(CreditLoad, s.user, n.amount, n.amount, None, Some(k))];
      return None;
    }

    method UpdateTopUpFromProvider(n: Notice, found: Option<nat>, now: Time)
      requires n.status != NoticeApproved
      modifies db
      ensures db.View() == Relabelled(old(db.View()), n, found, now)
    {
      if found.None? || found.value >= |db.sessions| || !Matches(db.sessions[found.value], n) {
        return;
      }
      var s := db.sessions[found.value];
      var order := if n.orderId.Some? then n.orderId else s.orderId;
      db.sessions := db.sessions[found.value := s.(paymentId := Some(n.paymentId), orderId := order,
                                                   status := StatusFor(n.status), processedAt := Some(now))];
    }

    /** Apply what the provider reports about one payment to the session the lookup found. */
    method SyncPaymentStatus(n: Notice, found: Option<nat>, now: Time) returns (error: Option<Rejection>)
      requires Valid()
      modifies db
      ensures Reply(db.View(), error) == SyncTopUp(old(db.View()), n, found, now)
    {
      error := None;
      if n.status == NoticeApproved {
        if found.Some? && found.value < |db.sessions| && Matches(db.sessions[found.value], n) {
          error := ApproveProviderTopUp(found.value, n, now);
        }
      } else {
        UpdateTopUpFromProvider(n, found, now);
      }
      if error.Some? {
        return;
      }
      db.providerEvents := db.providerEvents + {PaymentEvent(n.paymentId)};
    }

    method HandleProviderWebhook(kind: nat, n: Notice, found: Option<nat>, now: Time) returns (error: Option<Rejection>)
      requires Valid()
      modifies db
      ensures Reply(db.View(), error) == Webhook(old(db.View()), kind, n, found, now)
    {
      var key := WebhookEvent(kind, n.paymentId);
      if key in db.providerEvents {
        return None;
      }
      error := SyncPaymentStatus(n, found, now);
      if error.Some? {
        return;
      }
      db.providerEvents := db.providerEvents + {key};
    }

    method ApplyMockAction(k: nat, action: MockAction, now: Time) returns (error: Option<Rejection>)
      requires Valid()
      modifies db
      ensures Reply(db.View(), error) == MockStep(old(db.View()), k, action, now)
    {
      if k >= |db.sessions| || db.sessions[k].provider != Mock {
        return Some(NotFound);
      }
      var s := db.sessions[k];
      match action {
        case MockPend =>
          db.sessions := db.sessions[k := s.(status := AwaitingPayment)];
        case MockReject =>
          db.sessions := db.sessions[k := s.(status := Declined, processedAt := Some(now))];
        case MockExpire =>
          db.sessions := db.sessions[k := s.(status := Expired, processedAt := Some(now))];
        case MockApprove =>
          if s.processedAt.Some? {
            return None;
          }
          if s.status == Declined || s.status == Expired || s.status == RefundedInFull || s.status == RefundedInPart {
            return Some(WrongState);
          }
          error := ApproveProviderTopUp(k, Notice(k, NoticeApproved, s.amount, Some(s.reference), s.orderId), now);
          return;
      }
      return None;
    }

    /** Give back what is left of a top-up, or a part of it, if the balance still has it. */
    method RefundCreditTopUp(k: nat, amount: Option<real>, providerOk: bool) returns (error: Option<Rejection>)
      requires Valid()
      modifies db
      ensures Reply(db.View(), error) == RefundTopUp(old(db.View()), k, amount, providerOk)
    {
      if k >= |db.sessions| || db.sessions[k].status != Approved {
        return Some(NotApproved);
      }
      var s := db.sessions[k];
      var remaining := s.credited - s.refunded;
      var cents := if amount.Some? then RoundHalfUp(amount.value) else remaining;
      if cents <= 0 {
        return Some(BadAmount);
      }
      if cents > remaining {
        return Some(RefundTooLarge);
      }
      if s.user >= |db.wallets| || cents > db.wallets[s.user].credit {
        return Some(RefundTooLarge);
      }
      if s.provider == MercadoPago && (s.paymentId.None? || !providerOk) {
        return Some(ProviderRefused);
      }
      var refused := wallet.DebitUserBalance(s.user, cents, CreditTopUpRefund, OnSession(k));
      if refused.Some? {
        return Some(BadAmount);
      }
      var next := s.refunded + cents;
      db.sessions := db.sessions[k := s.(refunded := next, status := if next >= s.credited then RefundedInFull else RefundedInPart)];
      return None;
    }
  }
}
