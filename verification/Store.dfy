/** The stored tables as one mutable object, and the wallet service that writes to it. */
module Store {
  import opened Journal
  import opened Ledger
  import opened Market
  import opened Raffles
  import opened TopUps
  import opened Wrappers

  class Database {
    const config: Config
    var raffles: seq<Raffle>
    var wallets: seq<Wallet>
    var entries: seq<Entry>
    var sessions: seq<Session>
    var txs: seq<Tx>
    var providerEvents: set<EventKey>

    constructor (config: Config)
      ensures View() == Initial(config)
    {
      this.config := config;
      raffles, wallets, entries, sessions, txs, providerEvents := [], [], [], [], [], {};
    }

    function View(): Db
      reads this
    {
      Db(config, raffles, Books(wallets, entries), sessions, txs, providerEvents)
    }

    /** End a transaction that failed: everything is as it was at its start. */
    method Rollback(start: Db)
      requires start.config == config
      modifies this
      ensures View() == start
    {
      raffles, wallets, entries := start.raffles, start.books.wallets, start.books.entries;
      sessions, txs, providerEvents := start.sessions, start.txs, start.providerEvents;
    }
  }

  class WalletService {
    const db: Database

    constructor (db: Database)
      ensures this.db == db
    {
      this.db := db;
    }

    /** Change one balance of one wallet and append the signed ledger entry. */
    method Move(user: nat, kind: EntryKind, amount: int, context: Context)
      requires user < |db.wallets|
      modifies db
      ensures db.View() == old(db.View()).(books := Post(old(db.View()).books, user, kind, amount, context))
    {
      var wallet := db.wallets[user];
      wallet := if OnCredit(kind) then wallet.(credit := wallet.credit + amount) else wallet.(payable := wallet.payable + amount);
      db.wallets := db.wallets[user := wallet];
      db.entries := db.entries + [Entry(user, kind, amount, wallet.credit, wallet.payable, context)];
    }

    method CreditUserBalance(user: nat, amount: int, kind: EntryKind, context: Context) returns (error: Option<LedgerError>)
      requires OnCredit(kind)
      modifies db
      ensures Booked(old(db.View()), db.View(), CreditUser(old(db.View()).books, user, amount, kind, context), error)
    {
      if amount <= 0 {
        return Some(AmountNotPositive);
      }
      if user >= |db.wallets| {
        return Some(UnknownUser);
      }
      Move(user, kind, amount, context);
      return None;
    }

    method DebitUserBalance(user: nat, amount: int, kind: EntryKind, context: Context) returns (error: Option<LedgerError>)
      requires OnCredit(kind)
      modifies db
      ensures Booked(old(db.View()), db.View(), DebitUser(old(db.View()).books, user, amount, kind, context), error)
    {
      if amount <= 0 {
        return Some(AmountNotPositive);
      }
      if user >= |db.wallets| {
        return Some(UnknownUser);
      }
      if db.wallets[user].credit < amount {
        return Some(InsufficientBalance);
      }
      Move(user, kind, -amount, context);
      return None;
    }

    method CreditSellerPayable(seller: nat, amount: int, context: Context) returns (error: Option<LedgerError>)
      modifies db
      ensures Booked(old(db.View()), db.View(), CreditSeller(old(db.View()).books, seller, amount, context), error)
    {
      if amount <= 0 {
        return Some(AmountNotPositive);
      }
      if seller >= |db.wallets| {
        return Some(UnknownUser);
      }
      Move(seller, SellerPayableCredit, amount, context);
      return None;
    }

    method DebitSellerPayable(seller: nat, amount: int, context: Context) returns (error: Option<LedgerError>)
      modifies db
      ensures Booked(old(db.View()), db.View(), DebitSeller(old(db.View()).books, seller, amount, context), error)
    {
      if amount <= 0 {
        return Some(AmountNotPositive);
      }
      if seller >= |db.wallets| {
        return Some(UnknownUser);
      }
      if db.wallets[seller].payable < amount {
        return Some(InsufficientBalance);
      }
      Move(seller, SellerPayableDebit, -amount, context);
      return None;
    }
  }

  /** A wallet operation either writes exactly the new books, or reports its error and writes nothing. */
  predicate Booked(before: Db, after: Db, result: Result<Books, LedgerError>, error: Option<LedgerError>) {
    match result
    case Success(books) => error.None? && after == before.(books := books)
    case Failure(e) => error == Some(e) && after == before
  }
}
