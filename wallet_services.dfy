/**
 * The wallet service: the only code that changes balances. Amounts are
 * quantised to cents (round half up) first. Each operation is specified by
 * a step function on the ledger (wallet table + transaction table); the
 * lemmas below state what each step promises, above all that it keeps every
 * balance equal to the sum of its wallet's COMPLETED amounts.
 */
module WalletServices {
  import opened Common
  import opened Text
  import opened UserModels
  import opened WalletModels
  import opened Database

  // ------------------------------------------------------------ quantisation

  /** An exact decimal number: mantissa * 10^-scale. */
  datatype Decimal = Decimal(mantissa: int, scale: nat)

  function Pow10(n: nat): (r: nat)
    ensures r >= 1
  {
    if n == 0 then 1 else 10 * Pow10(n - 1)
  }

  /**
   * c is m/d rounded to the nearest integer, ties away from zero: the error
   * c*d - m is at most half of d, and a tie is resolved away from zero.
   */
  ghost predicate RoundsHalfUp(m: int, d: int, c: int)
    requires d >= 1
  {
    var err := c * d - m;
    && -d <= 2 * err <= d
    && (2 * err == d ==> m > 0)
    && (2 * err == -d ==> m < 0)
  }

  /** m/d for m >= 0, rounded half up. */
  function RoundHalfUpNat(m: nat, d: nat): (q: nat)
    requires d >= 1
    ensures RoundsHalfUp(m, d, q)
  {
    var lo, rem := m / d, m % d;
    assert m == lo * d + rem;
    if 2 * rem >= d then
      assert (lo + 1) * d - m == d - rem;
      lo + 1
    else
      lo
  }

  /** `_quantize_amount`: the amount in cents, rounded to 2 places with ROUND_HALF_UP. */
  function Quantize(x: Decimal): (cents: int)
    ensures x.scale <= 2 ==> cents == x.mantissa * Pow10(2 - x.scale)
    ensures x.scale > 2 ==> RoundsHalfUp(x.mantissa, Pow10(x.scale - 2), cents)
  {
    if x.scale <= 2 then x.mantissa * Pow10(2 - x.scale)
    else
      var d := Pow10(x.scale - 2);
      if x.mantissa >= 0 then RoundHalfUpNat(x.mantissa, d)
      else
        var q: int := RoundHalfUpNat(-x.mantissa, d);
        assert (-q) * d - x.mantissa == -(q * d - (-x.mantissa));
        -q
  }

  /** The rounding rule admits one result only, so Quantize is fully determined by its contract. */
  lemma RoundsHalfUpUnique(m: int, d: int, c1: int, c2: int)
    requires d >= 1 && RoundsHalfUp(m, d, c1) && RoundsHalfUp(m, d, c2)
    ensures c1 == c2
  {
    var k := c1 - c2;
    ErrorsDiffer(m, d, c1, c2);
    MultipleBounds(k, d);
  }

  /** Two rounding errors for the same m differ by a multiple of d. */
  lemma ErrorsDiffer(m: int, d: int, c1: int, c2: int)
    ensures (c1 * d - m) - (c2 * d - m) == (c1 - c2) * d
  {
  }

  /** d, -d and 0 are the only multiples of d that lie less than 2d away from 0. */
  lemma MultipleBounds(k: int, d: int)
    requires d >= 1
    ensures k >= 2 ==> k * d >= 2 * d
    ensures k <= -2 ==> k * d <= -2 * d
    ensures k == 1 ==> k * d == d
    ensures k == -1 ==> k * d == -d
    ensures k == 0 ==> k * d == 0
  {
    if k >= 2 {
      assert k * d == 2 * d + (k - 2) * d;
    } else if k <= -2 {
      assert k * d == -2 * d - (-k - 2) * d;
    }
  }

  /** An amount that already has two fraction digits is left as it is. */
  lemma QuantizeTwoPlaces(cents: int)
    ensures Quantize(Decimal(cents, 2)) == cents
  {
  }

  /** 100.005 becomes 100.01, -100.005 becomes -100.01, and 0.004 becomes 0.00. */
  lemma QuantizeExamples()
    ensures Quantize(Decimal(100005, 3)) == 10001
    ensures Quantize(Decimal(-100005, 3)) == -10001
    ensures Quantize(Decimal(4, 3)) == 0
  {
  }

  // ------------------------------------------------------------ errors

  /** WalletServiceError, its subclass WalletInsufficientBalanceError, and get_or_create's MultipleObjectsReturned. */
  datatype WalletError =
    | ServiceError(message: string)
    | InsufficientBalance(message: string)
    | MultipleObjectsReturned

  const AmountMustBePositive := "El monto debe ser mayor a cero."
  const InsufficientBalanceMessage := "Saldo insuficiente en la wallet."
  const ProviderNotConfigured := "Stripe no está configurado correctamente."

  function NoTransactionMessage(sessionId: string): string {
    "No se encontró la transacción para la sesión " + sessionId + "."
  }

  /** `settings.STRIPE_DEFAULT_CURRENCY or "EUR"`. */
  function ConfiguredCurrency(setting: string): (c: string)
    ensures c != ""
    ensures setting != "" ==> c == setting
    ensures setting == "" ==> c == "EUR"
  {
    if setting == "" then DefaultCurrency else setting
  }

  // ------------------------------------------------------------ lookups

  predicate OwnsRef(t: Transaction, owner: nat, ref: string) {
    t.wallet == owner && t.externalRef == ref
  }

  /** How many rows a `get` by (wallet, external_reference) finds: none, one (with its index), or several. */
  datatype Lookup = NoMatch | Unique(index: nat) | Several

  /** The `get` half of `get_or_create(wallet=..., external_reference=...)`. */
  function FindOwn(txs: seq<Transaction>, owner: nat, ref: string): (r: Lookup)
    ensures r.NoMatch? <==> forall i :: 0 <= i < |txs| ==> !OwnsRef(txs[i], owner, ref)
    ensures r.Unique? ==>
      && r.index < |txs| && OwnsRef(txs[r.index], owner, ref)
      && forall j :: 0 <= j < |txs| && j != r.index ==> !OwnsRef(txs[j], owner, ref)
    ensures r.Several? ==> exists i, j :: 0 <= i < j < |txs| && OwnsRef(txs[i], owner, ref) && OwnsRef(txs[j], owner, ref)
  {
    if txs == [] then NoMatch
    else
      var n := |txs| - 1;
      var rest := FindOwn(txs[..n], owner, ref);
      assert forall i :: 0 <= i < n ==> txs[..n][i] == txs[i];
      if !OwnsRef(txs[n], owner, ref) then rest
      else match rest
        case NoMatch => Unique(n)
        case Unique(i) => Several
        case Several => Several
  }

  predicate IsDepositFor(t: Transaction, ref: string) {
    t.kind == Deposit && t.externalRef == ref
  }

  /**
   * `filter(external_reference=ref, type=DEPOSIT).first()` under the
   * newest-first ordering of transactions: the last matching row, over the
   * rows of every wallet.
   */
  function LatestDeposit(txs: seq<Transaction>, ref: string): (r: Option<nat>)
    ensures r.None? <==> forall i :: 0 <= i < |txs| ==> !IsDepositFor(txs[i], ref)
    ensures r.Some? ==>
      && r.value < |txs| && IsDepositFor(txs[r.value], ref)
      && forall j :: r.value < j < |txs| ==> !IsDepositFor(txs[j], ref)
  {
    if txs == [] then None
    else if IsDepositFor(txs[|txs| - 1], ref) then Some(|txs| - 1)
    else
      var r := LatestDeposit(txs[..|txs| - 1], ref);
      assert forall i :: 0 <= i < |txs| - 1 ==> txs[..|txs| - 1][i] == txs[i];
      r
  }

  /** The newest deposit for a reference depends on the rows' types and references only. */
  lemma {:induction false} LatestDepositIgnoresStatus(txs: seq<Transaction>, i: nat, t: Transaction, ref: string)
    requires i < |txs| && t.kind == txs[i].kind && t.externalRef == txs[i].externalRef
    ensures LatestDeposit(txs[i := t], ref) == LatestDeposit(txs, ref)
  {
    var n := |txs| - 1;
    var u := txs[i := t];
    assert IsDepositFor(u[n], ref) == IsDepositFor(txs[n], ref);
    if i < n {
      assert u[..n] == txs[..n][i := t];
      LatestDepositIgnoresStatus(txs[..n], i, t, ref);
    } else {
      assert u[..n] == txs[..n];
    }
  }

  // ------------------------------------------------------------ steps

  /** The result of one service call: the ledger afterwards and what the call returned or raised. */
  datatype Outcome<T> = Outcome(ledger: Ledger, result: Result<T, WalletError>)

  /** The owner's wallet, or the one `get_wallet` would create: default balance, the service's currency. */
  function WalletOrNew(l: Ledger, owner: nat, currency: string): Wallet {
    if owner in l.wallets then l.wallets[owner] else DefaultWallet.(currency := currency)
  }

  /** The ledger after `get_wallet`. */
  function WithWallet(l: Ledger, owner: nat, currency: string): Ledger {
    l.(wallets := l.wallets[owner := WalletOrNew(l, owner, currency)])
  }

  /** `create_pending_deposit`. */
  function PendingDepositStep(l: Ledger, owner: nat, currency: string, amount: Decimal,
                              ref: string, description: string, metadata: Option<Metadata>): (o: Outcome<Transaction>)
    ensures o.result.Err? ==> o.ledger == WithWallet(l, owner, currency)
  {
    var l1 := WithWallet(l, owner, currency);
    match FindOwn(l1.txs, owner, ref)
    case NoMatch =>
      var t := Transaction(owner, Deposit, Quantize(amount), l1.wallets[owner].currency, description,
                           TxStatus.Pending, ref, metadata.GetOr(map[]), None);
      Outcome(l1.(txs := l1.txs + [t]), Ok(t))
    case Unique(i) => Outcome(l1, Ok(l1.txs[i]))
    case Several => Outcome(l1, Err(MultipleObjectsReturned))
  }

  /** setdefault("payment_intent", ...) when a non-empty payment intent is given. */
  function WithPaymentIntent(m: Metadata, paymentIntent: Option<string>): (r: Metadata)
    ensures "payment_intent" in m ==> r == m
    ensures paymentIntent.None? || paymentIntent.value == "" ==> r == m
    ensures "payment_intent" !in m && paymentIntent.Some? && paymentIntent.value != "" ==>
      r == m["payment_intent" := Str(paymentIntent.value)]
  {
    if paymentIntent.Some? && paymentIntent.value != "" && "payment_intent" !in m
    then m["payment_intent" := Str(paymentIntent.value)]
    else m
  }

  /** A deposit row once `complete_deposit` has settled it at time `now`. */
  function Settled(t: Transaction, now: nat, paymentIntent: Option<string>): Transaction {
    MarkedCompleted(t, now).(metadata := WithPaymentIntent(t.metadata, paymentIntent))
  }

  /** `complete_deposit`: credits the wallet the deposit belongs to, whoever calls it. */
  function CompleteDepositStep(l: Ledger, ref: string, paymentIntent: Option<string>, now: nat): (o: Outcome<Transaction>)
    requires l.WellFormed()
    ensures o.result.Err? ==> o.ledger == l
  {
    match LatestDeposit(l.txs, ref)
    case None => Outcome(l, Err(ServiceError(NoTransactionMessage(ref))))
    case Some(i) =>
      var t := l.txs[i];
      if t.status == TxStatus.Completed then Outcome(l, Ok(t))
      else
        var done := Settled(t, now, paymentIntent);
        Outcome(l.SettleRow(i, done), Ok(done))
  }

  /** `debit`. A wallet get_wallet creates has balance 0.00, too little for any positive amount, and its creation is rolled back. */
  function DebitStep(l: Ledger, owner: nat, currency: string, amount: Decimal,
                     description: string, metadata: Option<Metadata>, now: nat): (o: Outcome<Transaction>)
    ensures o.result.Err? ==> o.ledger == l
  {
    var q := Quantize(amount);
    if q <= 0 then Outcome(l, Err(ServiceError(AmountMustBePositive)))
    else
      var w := WalletOrNew(l, owner, currency);
      if w.balance < q then Outcome(l, Err(InsufficientBalance(InsufficientBalanceMessage)))
      else
        var t := Transaction(owner, Redeem, -q, w.currency, description, TxStatus.Completed, "",
                             metadata.GetOr(map[]), Some(now));
        Outcome(l.Post(t), Ok(t))
  }

  /** `refund`. */
  function RefundStep(l: Ledger, owner: nat, currency: string, amount: Decimal,
                      description: string, metadata: Option<Metadata>, now: nat): (o: Outcome<Transaction>)
    ensures o.result.Err? ==> o.ledger == l
  {
    var q := Quantize(amount);
    if q <= 0 then Outcome(l, Err(ServiceError(AmountMustBePositive)))
    else
      var l1 := WithWallet(l, owner, currency);
      var t := Transaction(owner, Refund, q, l1.wallets[owner].currency, description, TxStatus.Completed, "",
                           metadata.GetOr(map[]), Some(now));
      Outcome(l1.Post(t), Ok(t))
  }

  // ------------------------------------------------------------ what the steps promise

  /** get_wallet keeps an existing wallet as it is (its currency included) and keeps the ledger balanced. */
  lemma WithWalletKeepsLedger(l: Ledger, owner: nat, currency: string)
    requires l.WellFormed() && l.Balanced()
    ensures owner in l.wallets ==> WithWallet(l, owner, currency) == l
    ensures owner !in l.wallets ==> WithWallet(l, owner, currency).wallets[owner] == Wallet(0, currency)
    ensures WithWallet(l, owner, currency).WellFormed() && WithWallet(l, owner, currency).Balanced()
  {
    if owner !in l.wallets {
      SumCompletedUnreferenced(l.txs, owner);
    }
  }

  /**
   * create_pending_deposit is get-or-create on (wallet, reference) and never
   * touches a balance: it keeps every existing wallet; when no row of the
   * user's wallet carries the reference it appends one PENDING deposit of the
   * quantised amount in the wallet's currency and returns it; when exactly one
   * does it returns that row; when several do it raises; in the last two
   * cases the rows stay as they were.
   */
  lemma PendingDepositShape(l: Ledger, owner: nat, currency: string, amount: Decimal,
                            ref: string, description: string, metadata: Option<Metadata>)
    ensures var o := PendingDepositStep(l, owner, currency, amount, ref, description, metadata);
      && owner in o.ledger.wallets
      && (forall w :: w in l.wallets ==> w in o.ledger.wallets && o.ledger.wallets[w] == l.wallets[w])
      && (|o.ledger.txs| == |l.txs| || |o.ledger.txs| == |l.txs| + 1)
      && o.ledger.txs[..|l.txs|] == l.txs
      && ((forall i :: 0 <= i < |l.txs| ==> !OwnsRef(l.txs[i], owner, ref)) <==> |o.ledger.txs| == |l.txs| + 1)
      && (|o.ledger.txs| == |l.txs| + 1 ==>
            var t := o.ledger.txs[|l.txs|];
            && o.result == Ok(t)
            && t.wallet == owner && t.kind == Deposit && t.status == TxStatus.Pending && t.amount == Quantize(amount)
            && t.externalRef == ref && t.currency == o.ledger.wallets[owner].currency
            && t.description == description && t.metadata == metadata.GetOr(map[]) && t.completedAt.None?)
      && (FindOwn(l.txs, owner, ref).Unique? ==>
            o.result == Ok(l.txs[FindOwn(l.txs, owner, ref).index]) && o.ledger.txs == l.txs)
      && (FindOwn(l.txs, owner, ref).Several? ==> o.result == Err(MultipleObjectsReturned) && o.ledger.txs == l.txs)
  {
    var l1 := WithWallet(l, owner, currency);
    var o := PendingDepositStep(l, owner, currency, amount, ref, description, metadata);
    if FindOwn(l1.txs, owner, ref).NoMatch? {
      assert o.ledger.txs[..|l.txs|] == l.txs;
    } else {
      assert o.ledger == l1;
    }
  }

  /** create_pending_deposit keeps the ledger well formed and balanced. */
  lemma PendingDepositKeepsLedger(l: Ledger, owner: nat, currency: string, amount: Decimal,
                                  ref: string, description: string, metadata: Option<Metadata>)
    requires l.WellFormed() && l.Balanced()
    ensures var o := PendingDepositStep(l, owner, currency, amount, ref, description, metadata);
      o.ledger.WellFormed() && o.ledger.Balanced()
  {
    var l1 := WithWallet(l, owner, currency);
    WithWalletKeepsLedger(l, owner, currency);
    var o := PendingDepositStep(l, owner, currency, amount, ref, description, metadata);
    if FindOwn(l1.txs, owner, ref).NoMatch? {
      var t := o.ledger.txs[|l.txs|];
      assert o.ledger == Ledger(l1.wallets, l1.txs + [t]);
      AppendPendingKeepsLedger(l1, t);
    } else {
      assert o.ledger == l1;
    }
  }

  /** Appending a row that is not COMPLETED, for an existing wallet, keeps the ledger balanced. */
  lemma AppendPendingKeepsLedger(l: Ledger, t: Transaction)
    requires l.WellFormed() && l.Balanced()
    requires t.wallet in l.wallets && t.status != TxStatus.Completed
    ensures Ledger(l.wallets, l.txs + [t]).WellFormed() && Ledger(l.wallets, l.txs + [t]).Balanced()
  {
    var l2 := Ledger(l.wallets, l.txs + [t]);
    forall w | w in l2.wallets ensures l2.wallets[w].balance == SumCompleted(l2.txs, w) {
      SumCompletedAppend(l.txs, t, w);
    }
  }

  /** Repeating create_pending_deposit with the same session id returns the same row and changes nothing. */
  lemma PendingDepositIdempotent(l: Ledger, owner: nat, currency: string, amount: Decimal, ref: string,
                                 description: string, metadata: Option<Metadata>,
                                 amount2: Decimal, description2: string, metadata2: Option<Metadata>)
    ensures var o1 := PendingDepositStep(l, owner, currency, amount, ref, description, metadata);
      PendingDepositStep(o1.ledger, owner, currency, amount2, ref, description2, metadata2) == o1
  {
    var l1 := WithWallet(l, owner, currency);
    var o1 := PendingDepositStep(l, owner, currency, amount, ref, description, metadata);
    assert WithWallet(o1.ledger, owner, currency) == o1.ledger;
    if FindOwn(l1.txs, owner, ref).NoMatch? {
      var t := o1.ledger.txs[|l1.txs|];
      assert o1.ledger.txs == l1.txs + [t];
      assert FindOwn(o1.ledger.txs, owner, ref) == Unique(|l1.txs|) by {
        assert o1.ledger.txs[..|l1.txs|] == l1.txs;
      }
    }
  }

  /**
   * complete_deposit: an unknown reference raises and changes nothing; an
   * already completed deposit is returned unchanged; otherwise exactly the
   * deposit's amount is added to the balance of the deposit's own wallet, the
   * row becomes COMPLETED and stamped, and nothing else changes. The ledger
   * stays balanced.
   */
  lemma CompleteDepositKeepsLedger(l: Ledger, ref: string, paymentIntent: Option<string>, now: nat)
    requires l.WellFormed() && l.Balanced()
    ensures var o := CompleteDepositStep(l, ref, paymentIntent, now);
      && o.ledger.WellFormed() && o.ledger.Balanced()
      && o.ledger.wallets.Keys == l.wallets.Keys && |o.ledger.txs| == |l.txs|
      && (LatestDeposit(l.txs, ref).None? ==> o == Outcome(l, Err(ServiceError(NoTransactionMessage(ref)))))
      && (LatestDeposit(l.txs, ref).Some? ==>
            var i := LatestDeposit(l.txs, ref).value;
            var t := l.txs[i];
            && (t.status == TxStatus.Completed ==> o == Outcome(l, Ok(t)))
            && (t.status != TxStatus.Completed ==>
                  && o.ledger.wallets[t.wallet].balance == l.wallets[t.wallet].balance + t.amount
                  && o.ledger.wallets[t.wallet].currency == l.wallets[t.wallet].currency
                  && (forall w :: w in l.wallets && w != t.wallet ==> o.ledger.wallets[w] == l.wallets[w])
                  && o.ledger.txs == l.txs[i := o.result.value]
                  && o.result.value
                     == t.(status := TxStatus.Completed, completedAt := Some(now),
                           metadata := WithPaymentIntent(t.metadata, paymentIntent))))
  {
    var o := CompleteDepositStep(l, ref, paymentIntent, now);
    if LatestDeposit(l.txs, ref).Some? {
      var i := LatestDeposit(l.txs, ref).value;
      var t := l.txs[i];
      if t.status != TxStatus.Completed {
        SettleKeepsLedger(l, i, Settled(t, now, paymentIntent));
      }
    }
  }

  /** A session is credited at most once: completing it again returns the settled row and changes nothing. */
  lemma CompleteDepositCreditsOnce(l: Ledger, ref: string, paymentIntent: Option<string>, now: nat,
                                   paymentIntent2: Option<string>, now2: nat)
    requires l.WellFormed() && l.Balanced()
    ensures var o1 := CompleteDepositStep(l, ref, paymentIntent, now);
      o1.ledger.WellFormed() && CompleteDepositStep(o1.ledger, ref, paymentIntent2, now2) == o1
  {
    var o1 := CompleteDepositStep(l, ref, paymentIntent, now);
    CompleteDepositKeepsLedger(l, ref, paymentIntent, now);
    if LatestDeposit(l.txs, ref).Some? {
      var i := LatestDeposit(l.txs, ref).value;
      var t := l.txs[i];
      if t.status != TxStatus.Completed {
        LatestDepositIgnoresStatus(l.txs, i, Settled(t, now, paymentIntent), ref);
      }
    }
  }

  /**
   * A fresh session, recorded as pending and then completed, credits the
   * user's wallet with exactly the quantised amount, whatever its sign:
   * neither step checks that the amount is positive.
   */
  lemma DepositFlowCredits(l: Ledger, owner: nat, currency: string, amount: Decimal, ref: string,
                           description: string, metadata: Option<Metadata>, paymentIntent: Option<string>, now: nat)
    requires l.WellFormed() && l.Balanced()
    requires forall i :: 0 <= i < |l.txs| ==> l.txs[i].externalRef != ref
    ensures var o1 := PendingDepositStep(l, owner, currency, amount, ref, description, metadata);
      && o1.ledger.WellFormed()
      && var o2 := CompleteDepositStep(o1.ledger, ref, paymentIntent, now);
      && o2.result.Ok? && o2.result.value.status == TxStatus.Completed
      && o2.ledger.wallets[owner].balance == WalletOrNew(l, owner, currency).balance + Quantize(amount)
  {
    var l1 := WithWallet(l, owner, currency);
    var o1 := PendingDepositStep(l, owner, currency, amount, ref, description, metadata);
    PendingDepositShape(l, owner, currency, amount, ref, description, metadata);
    PendingDepositKeepsLedger(l, owner, currency, amount, ref, description, metadata);
    var n := |l.txs|;
    assert |o1.ledger.txs| == n + 1;
    assert LatestDeposit(o1.ledger.txs, ref) == Some(n);
  }

  /**
   * debit: rejects an amount that quantises to 0.00 or less, rejects an
   * amount above the balance (a missing wallet counts as 0.00), and in both
   * cases changes nothing. Otherwise the balance drops by exactly the
   * quantised amount, never below zero, and one COMPLETED redeem row of
   * minus that amount is appended. The ledger stays balanced.
   */
  lemma DebitKeepsLedger(l: Ledger, owner: nat, currency: string, amount: Decimal,
                         description: string, metadata: Option<Metadata>, now: nat)
    requires l.WellFormed() && l.Balanced()
    ensures var o := DebitStep(l, owner, currency, amount, description, metadata, now);
      var q := Quantize(amount);
      && o.ledger.WellFormed() && o.ledger.Balanced()
      && (q <= 0 ==> o == Outcome(l, Err(ServiceError(AmountMustBePositive))))
      && (q > 0 && (owner !in l.wallets || l.wallets[owner].balance < q) ==>
            o == Outcome(l, Err(InsufficientBalance(InsufficientBalanceMessage))))
      && (o.result.Ok? <==> q > 0 && owner in l.wallets && l.wallets[owner].balance >= q)
      && (o.result.Ok? ==>
            && o.ledger.wallets == l.wallets[owner := l.wallets[owner].(balance := l.wallets[owner].balance - q)]
            && o.ledger.wallets[owner].balance >= 0
            && o.ledger.txs == l.txs + [o.result.value]
            && o.result.value.kind == Redeem && o.result.value.status == TxStatus.Completed
            && o.result.value.amount == -q && o.result.value.wallet == owner
            && o.result.value.currency == l.wallets[owner].currency)
  {
    var o := DebitStep(l, owner, currency, amount, description, metadata, now);
    if o.result.Ok? {
      PostKeepsLedger(l, o.result.value);
    }
  }

  /**
   * refund: rejects an amount that quantises to 0.00 or less and changes
   * nothing; otherwise raises the balance by exactly the quantised amount
   * (creating the wallet if needed) and appends one COMPLETED refund row of
   * that amount. The ledger stays balanced.
   */
  lemma RefundKeepsLedger(l: Ledger, owner: nat, currency: string, amount: Decimal,
                          description: string, metadata: Option<Metadata>, now: nat)
    requires l.WellFormed() && l.Balanced()
    ensures var o := RefundStep(l, owner, currency, amount, description, metadata, now);
      var q := Quantize(amount);
      var w := WalletOrNew(l, owner, currency);
      && o.ledger.WellFormed() && o.ledger.Balanced()
      && (q <= 0 ==> o == Outcome(l, Err(ServiceError(AmountMustBePositive))))
      && (q > 0 ==>
            && o.result.Ok?
            && o.ledger.wallets == l.wallets[owner := w.(balance := w.balance + q)]
            && o.ledger.txs == l.txs + [o.result.value]
            && o.result.value.kind == Refund && o.result.value.status == TxStatus.Completed
            && o.result.value.amount == q && o.result.value.wallet == owner)
  {
    var o := RefundStep(l, owner, currency, amount, description, metadata, now);
    if Quantize(amount) > 0 {
      WithWalletKeepsLedger(l, owner, currency);
      PostKeepsLedger(WithWallet(l, owner, currency), o.result.value);
    }
  }

  /** From a fresh wallet: refund(150.00) gives 150.00, then debit(150.00) gives 0.00, with two COMPLETED rows. */
  lemma RefundThenDebitEmptiesWallet(owner: nat, currency: string, now: nat, later: nat)
    ensures var o1 := RefundStep(Ledger(map[], []), owner, currency, Decimal(15000, 2), "", None, now);
      var o2 := DebitStep(o1.ledger, owner, currency, Decimal(15000, 2), "", None, later);
      && o1.result.Ok? && o1.ledger.wallets[owner].balance == 15000
      && o2.result.Ok? && o2.ledger.wallets[owner].balance == 0
      && |o2.ledger.txs| == 2
      && o2.ledger.txs[0].kind == Refund && o2.ledger.txs[0].amount == 15000
      && o2.ledger.txs[1].kind == Redeem && o2.ledger.txs[1].amount == -15000
      && o2.ledger.Balanced()
  {
    var l0 := Ledger(map[], []);
    RefundKeepsLedger(l0, owner, currency, Decimal(15000, 2), "", None, now);
    var o1 := RefundStep(l0, owner, currency, Decimal(15000, 2), "", None, now);
    DebitKeepsLedger(o1.ledger, owner, currency, Decimal(15000, 2), "", None, later);
  }

  // ------------------------------------------------------------ the service

  /** What the application sends the payment provider to open a hosted checkout. */
  datatype CheckoutRequest = CheckoutRequest(
    unitAmount: int,
    currency: string,
    productName: string,
    metadata: Metadata,
    successUrl: string,
    cancelUrl: string)

  /** The provider's answer: a session id and the page to send the user to. */
  datatype ProviderSession = ProviderSession(id: string, url: string)

  datatype CheckoutSessionData = CheckoutSessionData(sessionId: string, url: string)

  /** `metadata or {}` with the user's id added under "user_id". */
  function TaggedMetadata(metadata: Option<Metadata>, userId: nat): (m: Metadata)
    ensures "user_id" in m && m["user_id"] == Str(NatToString(userId))
    ensures m.Keys == metadata.GetOr(map[]).Keys + {"user_id"}
    ensures forall k :: k in metadata.GetOr(map[]) && k != "user_id" ==> m[k] == metadata.GetOr(map[])[k]
  {
    metadata.GetOr(map[])["user_id" := Str(NatToString(userId))]
  }

  class WalletService {
    const db: Db
    const user: User
    const defaultCurrency: string

    constructor (db: Db, user: User, currencySetting: string)
      ensures this.db == db && this.user == user
      ensures defaultCurrency == ConfiguredCurrency(currencySetting)
    {
      this.db := db;
      this.user := user;
      defaultCurrency := ConfiguredCurrency(currencySetting);
    }

    /** Returns the user's wallet, creating it (balance 0.00, the service's currency) when there is none. */
    method GetWallet() returns (w: Wallet)
      requires db.Valid() && user.id in db.users
      modifies db`wallets
      ensures db.Valid()
      ensures db.LedgerOf() == WithWallet(old(db.LedgerOf()), user.id, defaultCurrency)
      ensures user.id in db.wallets && w == db.wallets[user.id]
    {
      WithWalletKeepsLedger(db.LedgerOf(), user.id, defaultCurrency);
      if user.id in db.wallets {
        w := db.wallets[user.id];
      } else {
        w := DefaultWallet.(currency := defaultCurrency);
        db.wallets := db.wallets[user.id := w];
      }
    }

    /** Records a PENDING deposit under a payment session id, once per wallet and session. */
    method CreatePendingDeposit(amount: Decimal, sessionId: string, description: string, metadata: Option<Metadata>)
      returns (r: Result<Transaction, WalletError>)
      requires db.Valid() && user.id in db.users
      modifies db`wallets, db`transactions
      ensures db.Valid()
      ensures Outcome(db.LedgerOf(), r)
           == PendingDepositStep(old(db.LedgerOf()), user.id, defaultCurrency, amount, sessionId, description, metadata)
    {
      ghost var l0 := db.LedgerOf();
      var q := Quantize(amount);
      var w := GetWallet();
      var md := metadata.GetOr(map[]);
      var found := FindOwn(db.transactions, user.id, sessionId);
      match found {
        case NoMatch =>
          var t := Transaction(user.id, Deposit, q, w.currency, description, TxStatus.Pending, sessionId, md, None);
          db.transactions := db.transactions + [t];
          r := Ok(t);
        case Unique(i) =>
          r := Ok(db.transactions[i]);
        case Several =>
          r := Err(MultipleObjectsReturned);
      }
      assert Outcome(db.LedgerOf(), r) == PendingDepositStep(l0, user.id, defaultCurrency, amount, sessionId, description, metadata);
      assert db.LedgerOf().WellFormed() && db.LedgerOf().Balanced() by {
        PendingDepositKeepsLedger(l0, user.id, defaultCurrency, amount, sessionId, description, metadata);
      }
    }

    /**
     * Settles the deposit recorded under a payment session id. The lookup
     * spans every wallet's transactions, and the wallet credited is the one
     * the deposit belongs to; the calling user plays no part.
     */
    method CompleteDeposit(sessionId: string, paymentIntent: Option<string>)
      returns (r: Result<Transaction, WalletError>)
      requires db.Valid()
      modifies db`wallets, db`transactions, db`clock
      ensures db.Valid()
      ensures Outcome(db.LedgerOf(), r) == CompleteDepositStep(old(db.LedgerOf()), sessionId, paymentIntent, old(db.clock))
      ensures db.clock == if db.LedgerOf() == old(db.LedgerOf()) then old(db.clock) else old(db.clock) + 1
    {
      ghost var l0, now0 := db.LedgerOf(), db.clock;
      var found := LatestDeposit(db.transactions, sessionId);
      if found.None? {
        return Err(ServiceError(NoTransactionMessage(sessionId)));
      }
      var i := found.value;
      var t := db.transactions[i];
      if t.status == TxStatus.Completed {
        return Ok(t);
      }
      var md := WithPaymentIntent(t.metadata, paymentIntent);
      t := db.Settle(i, md);
      r := Ok(t);
      assert Outcome(db.LedgerOf(), r) == CompleteDepositStep(l0, sessionId, paymentIntent, now0);
    }

    /** Takes a positive amount out of the wallet, with one COMPLETED redeem row of minus that amount. */
    method Debit(amount: Decimal, description: string, metadata: Option<Metadata>)
      returns (r: Result<Transaction, WalletError>)
      requires db.Valid() && user.id in db.users
      modifies db`wallets, db`transactions, db`clock
      ensures db.Valid()
      ensures Outcome(db.LedgerOf(), r)
           == DebitStep(old(db.LedgerOf()), user.id, defaultCurrency, amount, description, metadata, old(db.clock))
      ensures db.clock == if r.Ok? then old(db.clock) + 1 else old(db.clock)
    {
      var q := Quantize(amount);
      if q <= 0 {
        return Err(ServiceError(AmountMustBePositive));
      }
      ghost var l0, now0 := db.LedgerOf(), db.clock;
      var md := metadata.GetOr(map[]);
      var saved := db.wallets;
      var w := GetWallet();
      if w.balance < q {
        // the atomic block rolls back the wallet get_wallet may have created
        db.wallets := saved;
        return Err(InsufficientBalance(InsufficientBalanceMessage));
      }
      assert db.LedgerOf() == l0;
      var t := db.PostCompleted(user.id, Redeem, -q, description, md);
      r := Ok(t);
      assert Outcome(db.LedgerOf(), r) == DebitStep(l0, user.id, defaultCurrency, amount, description, metadata, now0);
    }

    /** Puts a positive amount into the wallet, with one COMPLETED refund row of that amount. */
    method Refund(amount: Decimal, description: string, metadata: Option<Metadata>)
      returns (r: Result<Transaction, WalletError>)
      requires db.Valid() && user.id in db.users
      modifies db`wallets, db`transactions, db`clock
      ensures db.Valid()
      ensures Outcome(db.LedgerOf(), r)
           == RefundStep(old(db.LedgerOf()), user.id, defaultCurrency, amount, description, metadata, old(db.clock))
      ensures db.clock == if r.Ok? then old(db.clock) + 1 else old(db.clock)
    {
      var q := Quantize(amount);
      if q <= 0 {
        return Err(ServiceError(AmountMustBePositive));
      }
      ghost var l0, now0 := db.LedgerOf(), db.clock;
      var md := metadata.GetOr(map[]);
      var w := GetWallet();
      var t := db.PostCompleted(user.id, TxType.Refund, q, description, md);
      r := Ok(t);
      assert Outcome(db.LedgerOf(), r) == RefundStep(l0, user.id, defaultCurrency, amount, description, metadata, now0);
    }

    /**
     * Opens a hosted checkout with the payment provider and records the
     * pending deposit the provider's completion will settle. `secretKey` is
     * the configured provider key; `session` is what the provider answers.
     * `request` is what was sent to the provider, if anything was.
     */
    method CreateCheckoutSession(amount: Decimal, successUrl: string, cancelUrl: string, description: string,
                                 metadata: Option<Metadata>, secretKey: string, session: ProviderSession)
      returns (r: Result<CheckoutSessionData, WalletError>, request: Option<CheckoutRequest>)
      requires db.Valid() && user.id in db.users
      modifies db`wallets, db`transactions
      ensures db.Valid()
      ensures Quantize(amount) <= 0 ==>
        r == Err(ServiceError(AmountMustBePositive)) && request.None? && db.LedgerOf() == old(db.LedgerOf())
      ensures Quantize(amount) > 0 && secretKey == "" ==>
        r == Err(ServiceError(ProviderNotConfigured)) && request.None? && db.LedgerOf() == old(db.LedgerOf())
      ensures Quantize(amount) > 0 && secretKey != "" ==>
        var tagged := TaggedMetadata(metadata, user.id);
        var o := PendingDepositStep(old(db.LedgerOf()), user.id, defaultCurrency, Decimal(Quantize(amount), 2),
                                    session.id, description, Some(tagged));
        && request == Some(CheckoutRequest(Quantize(amount), Lower(defaultCurrency), description, tagged, successUrl, cancelUrl))
        && db.LedgerOf() == o.ledger
        && r == (if o.result.Ok? then Ok(CheckoutSessionData(session.id, session.url)) else Err(o.result.error))
    {
      var q := Quantize(amount);
      if q <= 0 {
        return Err(ServiceError(AmountMustBePositive)), None;
      }
      if secretKey == "" {
        return Err(ServiceError(ProviderNotConfigured)), None;
      }
      var tagged := TaggedMetadata(metadata, user.id);
      // int(amount_decimal * 100) is exact: the amount has two fraction digits
      request := Some(CheckoutRequest(q, Lower(defaultCurrency), description, tagged, successUrl, cancelUrl));
      var pending := CreatePendingDeposit(Decimal(q, 2), session.id, description, Some(tagged));
      if pending.Err? {
        return Err(pending.error), request;
      }
      r := Ok(CheckoutSessionData(session.id, session.url));
    }
  }
}
