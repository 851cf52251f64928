/**
 * The ledger entities: a wallet (one per user, balance in cents) and the
 * transactions that record every change of a balance. The ledger's
 * invariant is stated over SumCompleted: a wallet's balance is the sum of
 * the amounts of its COMPLETED transactions.
 */
module WalletModels {
  import opened Common
  import opened Text

  datatype TxType = Deposit | Redeem | Refund {
    /** The human-readable label of the choice. */
    function Label(): string {
      match this
      case Deposit => "Depósito"
      case Redeem => "Canje"
      case Refund => "Reembolso"
    }
  }

  datatype TxStatus = Pending | Completed | Failed

  /** A JSON value stored in a transaction's metadata (strings and integers are all the platform stores). */
  datatype MetaValue = Str(s: string) | Int(i: int)

  type Metadata = map<string, MetaValue>

  /** Default of the `currency` columns of wallets, transactions and redemptions. */
  const DefaultCurrency := "EUR"

  /** A wallet row; the balance is in cents. The owner is the key the wallet is stored under. */
  datatype Wallet = Wallet(balance: int, currency: string)

  /** A wallet as the model's defaults create it: balance 0.00 and currency EUR. */
  const DefaultWallet := Wallet(0, DefaultCurrency)

  /**
   * A ledger line. `wallet` is the owning wallet (named by its owner's id),
   * `amount` is signed cents (debits negative), `externalRef` is the payment
   * session id ("" when there is none), `completedAt` the completion stamp.
   */
  datatype Transaction = Transaction(
    wallet: nat,
    kind: TxType,
    amount: int,
    currency: string,
    description: string,
    status: TxStatus,
    externalRef: string,
    metadata: Metadata,
    completedAt: Option<nat>)

  /** Default of the `status` column. */
  const DefaultStatus := Pending

  /** A new wallet holds 0.00 EUR; a new transaction is PENDING and not yet stamped. */
  lemma ColumnDefaults()
    ensures DefaultWallet.balance == 0 && DefaultWallet.currency == "EUR"
    ensures DefaultStatus == Pending && DefaultStatus != Completed
  {
  }

  /**
   * The row after `mark_completed` at time `now`: a row that is not yet
   * completed becomes COMPLETED and is stamped; a completed row is left alone.
   */
  function MarkedCompleted(t: Transaction, now: nat): (r: Transaction)
    ensures r.status == Completed
    ensures t.status == Completed ==> r == t
    ensures t.status != Completed ==> r.completedAt == Some(now)
    ensures r.(status := t.status, completedAt := t.completedAt) == t
  {
    if t.status != Completed then t.(status := Completed, completedAt := Some(now)) else t
  }

  /** Marking twice is marking once: the second call neither moves the status nor re-stamps. */
  lemma MarkCompletedIdempotent(t: Transaction, first: nat, second: nat)
    ensures MarkedCompleted(MarkedCompleted(t, first), second) == MarkedCompleted(t, first)
  {
  }

  /** The signed amount as the display shows it: "-" for a debit, "+" otherwise, then the absolute amount. */
  function SignedAmount(amount: int): string {
    [if amount < 0 then '-' else '+'] + FormatCents(if amount < 0 then -amount else amount)
  }

  /** Reads a signed amount back from its display form. */
  function ParseSigned(s: string): int
    requires |s| >= 1 && CentsShaped(s[1..])
  {
    (if s[0] == '-' then -1 else 1) * ParseCents(s[1..])
  }

  /** The display shows "-" exactly for negative amounts, and determines the amount. */
  lemma SignedAmountRoundTrip(amount: int)
    ensures var s := SignedAmount(amount);
      && |s| >= 1 && ((s[0] == '-') <==> amount < 0)
      && CentsShaped(s[1..]) && ParseSigned(s) == amount
  {
    var s := SignedAmount(amount);
    var abs := if amount < 0 then -amount else amount;
    assert s[1..] == FormatCents(abs);
    FormatCentsRoundTrip(abs);
  }

  /** `shown` is a signed display of `amount`: "-" exactly for a debit, and it reads back to the amount. */
  ghost predicate ShowsAmount(shown: string, amount: int) {
    |shown| >= 1 && ((shown[0] == '-') <==> amount < 0) && CentsShaped(shown[1..]) && ParseSigned(shown) == amount
  }

  /**
   * `str(tx)`: owner, type label, signed absolute amount, currency. The amount
   * can be read back from the text between the label and the currency.
   */
  function Display(t: Transaction, username: string): (r: string)
    ensures var head, tail := username + " " + t.kind.Label() + " ", " " + t.currency;
      && |head| + |tail| <= |r| && r[..|head|] == head && r[|r| - |tail|..] == tail
      && ShowsAmount(r[|head|..|r| - |tail|], t.amount)
  {
    var head, tail := username + " " + t.kind.Label() + " ", " " + t.currency;
    var s := SignedAmount(t.amount);
    SignedAmountRoundTrip(t.amount);
    ThreePartSlices(head, s, tail);
    head + s + tail
  }

  /** The three parts of a concatenation are its slices. */
  lemma ThreePartSlices(a: string, b: string, c: string)
    ensures var r := a + b + c;
      && r[..|a|] == a && r[|r| - |c|..] == c && r[|a|..|r| - |c|] == b
  {
  }

  /** What one transaction contributes to wallet `w`'s balance. */
  function Contribution(t: Transaction, w: nat): int {
    if t.wallet == w && t.status == Completed then t.amount else 0
  }

  /** The sum of the amounts of the COMPLETED transactions of wallet `w`. */
  function SumCompleted(txs: seq<Transaction>, w: nat): int {
    if txs == [] then 0 else SumCompleted(txs[..|txs| - 1], w) + Contribution(txs[|txs| - 1], w)
  }

  /** Appending a row adds its contribution and nothing else. */
  lemma {:induction false} SumCompletedAppend(txs: seq<Transaction>, t: Transaction, w: nat)
    ensures SumCompleted(txs + [t], w) == SumCompleted(txs, w) + Contribution(t, w)
  {
    assert (txs + [t])[..|txs|] == txs;
  }

  /** Replacing row i swaps its contribution for that of the new row. */
  lemma {:induction false} SumCompletedUpdate(txs: seq<Transaction>, i: nat, t: Transaction, w: nat)
    requires i < |txs|
    ensures SumCompleted(txs[i := t], w) == SumCompleted(txs, w) - Contribution(txs[i], w) + Contribution(t, w)
  {
    var n := |txs| - 1;
    var u := txs[i := t];
    if i == n {
      assert u[..n] == txs[..n];
    } else {
      assert u[..n] == txs[..n][i := t];
      SumCompletedUpdate(txs[..n], i, t, w);
    }
  }

  /** The wallet table (keyed by owner id) and the transaction table (in creation order) together. */
  datatype Ledger = Ledger(wallets: map<nat, Wallet>, txs: seq<Transaction>) {
    /** Every transaction belongs to an existing wallet. */
    ghost predicate WellFormed() {
      forall i :: 0 <= i < |txs| ==> txs[i].wallet in wallets
    }

    /** Every balance equals the sum of the amounts of its wallet's COMPLETED transactions. */
    ghost predicate Balanced() {
      forall w :: w in wallets ==> wallets[w].balance == SumCompleted(txs, w)
    }

    /** The ledger after posting row t: t's wallet moves by t's amount and t is appended. */
    function Post(t: Transaction): Ledger
      requires t.wallet in wallets
    {
      var w := wallets[t.wallet];
      Ledger(wallets[t.wallet := w.(balance := w.balance + t.amount)], txs + [t])
    }

    /** The ledger after row i is replaced by its settled form t: t's wallet moves by t's amount. */
    function SettleRow(i: nat, t: Transaction): Ledger
      requires i < |txs| && t.wallet in wallets
    {
      var w := wallets[t.wallet];
      Ledger(wallets[t.wallet := w.(balance := w.balance + t.amount)], txs[i := t])
    }
  }

  /** Posting a COMPLETED row together with its balance change keeps the ledger balanced. */
  lemma PostKeepsLedger(l: Ledger, t: Transaction)
    requires l.WellFormed() && l.Balanced()
    requires t.wallet in l.wallets && t.status == Completed
    ensures l.Post(t).WellFormed() && l.Post(t).Balanced()
  {
    forall v | v in l.wallets ensures SumCompleted(l.txs + [t], v) == SumCompleted(l.txs, v) + Contribution(t, v) {
      SumCompletedAppend(l.txs, t, v);
    }
  }

  /** Completing row i (not COMPLETED before) together with crediting its amount keeps the ledger balanced. */
  lemma SettleKeepsLedger(l: Ledger, i: nat, t: Transaction)
    requires l.WellFormed() && l.Balanced() && i < |l.txs| && l.txs[i].status != Completed
    requires t.status == Completed && t.wallet == l.txs[i].wallet && t.amount == l.txs[i].amount
    ensures l.SettleRow(i, t).WellFormed() && l.SettleRow(i, t).Balanced()
  {
    forall v | v in l.wallets
      ensures SumCompleted(l.txs[i := t], v) == SumCompleted(l.txs, v) - Contribution(l.txs[i], v) + Contribution(t, v)
    {
      SumCompletedUpdate(l.txs, i, t, v);
    }
  }

  /**
   * Marking alone, without the matching credit, unbalances the ledger for a
   * row that was not COMPLETED and moves money: its wallet's COMPLETED sum
   * moves by the amount while the balance stays.
   */
  lemma MarkingAloneUnbalances(l: Ledger, i: nat, now: nat)
    requires l.WellFormed() && l.Balanced() && i < |l.txs|
    requires l.txs[i].status != Completed && l.txs[i].amount != 0
    ensures !Ledger(l.wallets, l.txs[i := MarkedCompleted(l.txs[i], now)]).Balanced()
  {
    var t := l.txs[i];
    var w := t.wallet;
    SumCompletedUpdate(l.txs, i, MarkedCompleted(t, now), w);
    assert SumCompleted(l.txs[i := MarkedCompleted(t, now)], w) == l.wallets[w].balance + t.amount;
  }

  /** A wallet no row belongs to has an empty ledger. */
  lemma {:induction false} SumCompletedUnreferenced(txs: seq<Transaction>, w: nat)
    requires forall i :: 0 <= i < |txs| ==> txs[i].wallet != w
    ensures SumCompleted(txs, w) == 0
  {
    if txs != [] {
      SumCompletedUnreferenced(txs[..|txs| - 1], w);
    }
  }
}
