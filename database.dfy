/**
 * The relational store the services work on, as one object: the tables are
 * fields the services reassign. Wallets are keyed by their owner's id (the
 * relation is one-to-one); transactions are kept in creation order, so the
 * newest row has the highest index; `clock` stands for the current time.
 */
module Database {
  import opened Common
  import opened UserModels
  import opened CatalogModels
  import opened WalletModels
  import opened RewardsModels

  class Db {
    var users: map<nat, User>
    var nextUserId: nat
    var products: map<nat, Product>
    var wallets: map<nat, Wallet>
    var transactions: seq<Transaction>
    var redemptions: seq<Redemption>
    var notifications: seq<Notification>
    var clock: nat

    constructor ()
      ensures Valid()
      ensures users == map[] && products == map[] && wallets == map[]
      ensures transactions == [] && redemptions == [] && notifications == []
    {
      users := map[];
      nextUserId := 1;
      products := map[];
      wallets := map[];
      transactions := [];
      redemptions := [];
      notifications := [];
      clock := 0;
    }

    /** The wallet and transaction tables. */
    function LedgerOf(): Ledger
      reads this`wallets, this`transactions
    {
      Ledger(wallets, transactions)
    }

    /** The tables outside the ledger: keys agree with row ids, and foreign keys point at existing rows. */
    static ghost predicate RowsAgree(users: map<nat, User>, nextUserId: nat, products: map<nat, Product>,
                                     redemptions: seq<Redemption>, notifications: seq<Notification>)
    {
      && (forall id :: id in users ==> users[id].id == id && id < nextUserId)
      && (forall id :: id in products ==> products[id].id == id)
      && (forall i :: 0 <= i < |redemptions| ==> redemptions[i].user in users && redemptions[i].product in products)
      && (forall i :: 0 <= i < |notifications| ==> notifications[i].user in users)
    }

    /** Keys agree with row ids, and every foreign key points at an existing row. */
    ghost predicate WellFormed()
      reads this
    {
      && RowsAgree(users, nextUserId, products, redemptions, notifications)
      && wallets.Keys <= users.Keys
      && LedgerOf().WellFormed()
    }

    /** The ledger invariant: every balance is the sum of its wallet's COMPLETED amounts. */
    ghost predicate Balanced()
      reads this`wallets, this`transactions
    {
      LedgerOf().Balanced()
    }

    ghost predicate Valid()
      reads this
    {
      WellFormed() && Balanced()
    }

    /** `Redemption.objects.create`: appends a row whose user and product exist. */
    method InsertRedemption(red: Redemption)
      requires Valid() && red.user in users && red.product in products
      modifies this`redemptions
      ensures redemptions == old(redemptions) + [red]
      ensures Valid()
    {
      redemptions := redemptions + [red];
    }

    /** `Notification.objects.create`: appends an unread message for an existing user, stamped now. */
    method InsertNotification(user: nat, message: string) returns (n: Notification)
      requires Valid() && user in users
      modifies this`notifications, this`clock
      ensures n == Notification(user, message, old(clock), false)
      ensures notifications == old(notifications) + [n] && clock == old(clock) + 1
      ensures Valid()
    {
      var now := Now();
      n := Notification(user, message, now, false);
      notifications := notifications + [n];
    }

    /**
     * Writes one COMPLETED movement of `delta` cents for an existing wallet:
     * the balance moves by `delta` and the matching ledger line, stamped now,
     * is appended. The ledger stays balanced.
     */
    method PostCompleted(owner: nat, kind: TxType, delta: int, description: string, metadata: Metadata)
      returns (t: Transaction)
      requires Valid() && owner in wallets
      modifies this`wallets, this`transactions, this`clock
      ensures t == Transaction(owner, kind, delta, old(wallets[owner].currency), description, TxStatus.Completed, "",
                               metadata, Some(old(clock)))
      ensures LedgerOf() == old(LedgerOf()).Post(t) && clock == old(clock) + 1
      ensures Valid()
    {
      var w := wallets[owner];
      var now := Now();
      t := Transaction(owner, kind, delta, w.currency, description, TxStatus.Completed, "", metadata, Some(now));
      PostKeepsLedger(LedgerOf(), t);
      wallets := wallets[owner := w.(balance := w.balance + delta)];
      transactions := transactions + [t];
    }

    /**
     * Settles the not yet COMPLETED row i: its wallet is credited with its
     * amount, and the row becomes COMPLETED, stamped now, with `metadata`.
     * The ledger stays balanced.
     */
    method Settle(i: nat, metadata: Metadata) returns (t: Transaction)
      requires Valid() && i < |transactions| && transactions[i].status != TxStatus.Completed
      modifies this`wallets, this`transactions, this`clock
      ensures t == old(transactions[i]).(status := TxStatus.Completed, completedAt := Some(old(clock)), metadata := metadata)
      ensures LedgerOf() == old(LedgerOf()).SettleRow(i, t) && clock == old(clock) + 1
      ensures Valid()
    {
      var now := Now();
      t := transactions[i].(status := TxStatus.Completed, completedAt := Some(now), metadata := metadata);
      SettleKeepsLedger(LedgerOf(), i, t);
      var w := wallets[t.wallet];
      wallets := wallets[t.wallet := w.(balance := w.balance + t.amount)];
      transactions := transactions[i := t];
    }

    /** The current time; every call returns a later one. */
    method Now() returns (t: nat)
      modifies this`clock
      ensures t == old(clock) && clock == t + 1
    {
      t := clock;
      clock := clock + 1;
    }

    /**
     * `mark_completed` on transaction row i. It changes the row's status and
     * stamp only, and does not credit the wallet: the ledger stays balanced
     * when the row was already COMPLETED (a no-op) or moves no money.
     */
    method MarkCompleted(i: nat)
      requires WellFormed() && i < |transactions|
      modifies this`transactions, this`clock
      ensures WellFormed()
      ensures clock == old(clock) + 1
      ensures transactions == old(transactions)[i := MarkedCompleted(old(transactions[i]), old(clock))]
      ensures old(transactions[i].status) == TxStatus.Completed ==> transactions == old(transactions)
      ensures old(Balanced()) && (old(transactions[i].status) == TxStatus.Completed || old(transactions[i].amount) == 0) ==> Balanced()
    {
      var now := Now();
      var t := transactions[i];
      var marked := MarkedCompleted(t, now);
      forall w ensures SumCompleted(transactions[i := marked], w) == SumCompleted(transactions, w) - Contribution(t, w) + Contribution(marked, w) {
        SumCompletedUpdate(transactions, i, marked, w);
      }
      transactions := transactions[i := marked];
    }
  }
}
