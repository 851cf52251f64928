/**
 * The redemption workflow: a user exchanges points, or wallet money, for one
 * unit of a product. The whole exchange is atomic: a failure at any step
 * leaves every table as it was. `RedeemStep` specifies the exchange on
 * values; `RedeemProductService.Execute` carries it out on the store.
 */
module RewardsServices {
  import opened Common
  import opened Text
  import opened UserModels
  import opened CatalogModels
  import opened WalletModels
  import opened RewardsModels
  import opened Database
  import opened WalletServices

  const ProductUnavailable := "El producto no esta disponible."
  const OutOfStock := "El producto no cuenta con inventario."
  const NotEnoughPoints := "No cuentas con puntos suficientes."
  const NotEnoughBalance := "No cuentas con saldo suficiente."
  const WelcomeMessage := "Bienvenido. Empieza a realizar acciones para ganar puntos."

  /**
   * What `execute` can raise: its own RedemptionServiceError, a wallet error
   * it does not translate, the decimal error a missing money price causes,
   * the product's DoesNotExist, and the ValidationError of the product save.
   */
  datatype RedemptionError =
    | RedemptionServiceError(message: string)
    | WalletFailure(error: WalletError)
    | InvalidOperation
    | ProductDoesNotExist
    | Validation(field: FieldError)

  // ------------------------------------------------------------ the notification

  const RedeemedPrefix := "Has canjeado "

  /** What the notification says was paid: "<n> puntos." or "<amount> <currency>.". */
  function CostPhrase(pointsSpent: nat, moneySpent: int, currency: string): string {
    if pointsSpent != 0 then NatToString(pointsSpent) + " puntos."
    else FormatAmount(moneySpent) + " " + currency + "."
  }

  /** The message sent after a redemption: the points phrasing when points were spent, else the money phrasing. */
  function BuildNotificationMessage(productName: string, pointsSpent: nat, moneySpent: int, currency: string): (m: string)
    ensures StartsWith(m, RedeemedPrefix + productName + " por ")
    ensures m[|RedeemedPrefix + productName + " por "|..] == CostPhrase(pointsSpent, moneySpent, currency)
  {
    var head := RedeemedPrefix + productName + " por ";
    var m := head + CostPhrase(pointsSpent, moneySpent, currency);
    assert m[..|head|] == head;
    m
  }

  /** The points phrase: a run of digits closed by a space. */
  lemma PointsPhraseShape(pointsSpent: nat, moneySpent: int, currency: string)
    requires pointsSpent != 0
    ensures CostPhrase(pointsSpent, moneySpent, currency) == NatToString(pointsSpent) + [' '] + "puntos."
  {
    assert " puntos." == [' '] + "puntos.";
  }

  /** The phrase of a non-negative money amount: a run of digits closed by the decimal point. */
  lemma MoneyPhraseShape(moneySpent: nat, currency: string)
    ensures CostPhrase(0, moneySpent, currency)
         == NatToString(moneySpent / 100) + ['.']
            + ([DigitChar(moneySpent % 100 / 10), DigitChar(moneySpent % 10)] + " " + currency + ".")
  {
  }

  /** The phrase of a negative money amount starts with the minus sign. */
  lemma NegativePhraseShape(moneySpent: int, currency: string)
    requires moneySpent < 0
    ensures CostPhrase(0, moneySpent, currency) == [] + ['-'] + (FormatCents(-moneySpent) + " " + currency + ".")
  {
  }

  /** The two phrasings never coincide: a points message is never a money message, whatever the currency. */
  lemma PointsAndMoneyPhrasingsDiffer(productName: string, pointsSpent: nat, moneySpent: int, currency: string,
                                      moneySpent2: int, currency2: string)
    requires pointsSpent != 0
    ensures BuildNotificationMessage(productName, pointsSpent, moneySpent, currency)
         != BuildNotificationMessage(productName, 0, moneySpent2, currency2)
  {
    var m1 := BuildNotificationMessage(productName, pointsSpent, moneySpent, currency);
    var m2 := BuildNotificationMessage(productName, 0, moneySpent2, currency2);
    PointsPhraseShape(pointsSpent, moneySpent, currency);
    if moneySpent2 >= 0 {
      if m1 == m2 {
        MoneyPhraseShape(moneySpent2, currency2);
        DigitRunPrefix(NatToString(pointsSpent), ' ', "puntos.", NatToString(moneySpent2 / 100), '.',
          [DigitChar(moneySpent2 % 100 / 10), DigitChar(moneySpent2 % 10)] + " " + currency2 + ".");
      }
    } else {
      var k := |RedeemedPrefix + productName + " por "|;
      NegativePhraseShape(moneySpent2, currency2);
      assert m1[k] == m1[k..][0] == NatToString(pointsSpent)[0];
      assert m2[k] == m2[k..][0] == '-';
    }
  }

  /** A points message names the number of points: different counts give different messages. */
  lemma PointsMessageDeterminesPoints(productName: string, p1: nat, p2: nat, m1: int, c1: string, m2: int, c2: string)
    requires p1 != 0 && p2 != 0
    requires BuildNotificationMessage(productName, p1, m1, c1) == BuildNotificationMessage(productName, p2, m2, c2)
    ensures p1 == p2
  {
    PointsPhraseShape(p1, m1, c1);
    PointsPhraseShape(p2, m2, c2);
    DigitRunPrefix(NatToString(p1), ' ', "puntos.", NatToString(p2), ' ', "puntos.");
    NatToStringInjective(p1, p2);
  }

  /** A money message names the amount and the currency: different ones give different messages. */
  lemma MoneyMessageDeterminesAmount(productName: string, m1: nat, c1: string, m2: nat, c2: string)
    requires BuildNotificationMessage(productName, 0, m1, c1) == BuildNotificationMessage(productName, 0, m2, c2)
    ensures m1 == m2 && c1 == c2
  {
    MoneyPhraseShape(m1, c1);
    MoneyPhraseShape(m2, c2);
    var d1 := [DigitChar(m1 % 100 / 10), DigitChar(m1 % 10)];
    var d2 := [DigitChar(m2 % 100 / 10), DigitChar(m2 % 10)];
    var r1 := d1 + " " + c1 + ".";
    var r2 := d2 + " " + c2 + ".";
    DigitRunPrefix(NatToString(m1 / 100), '.', r1, NatToString(m2 / 100), '.', r2);
    assert d1 == r1[..2] == r2[..2] == d2;
    assert c1 == r1[3..|r1| - 1] == r2[3..|r2| - 1] == c2;
    assert FormatCents(m1) == NatToString(m1 / 100) + "." + d1;
    assert FormatCents(m2) == NatToString(m2 / 100) + "." + d2;
    FormatCentsRoundTrip(m1);
    FormatCentsRoundTrip(m2);
  }

  // ------------------------------------------------------------ the exchange on values

  /** The columns of a product row the exchange reads. */
  datatype ProductRow = ProductRow(
    name: string,
    priceType: PriceType,
    pointsCost: Option<nat>,
    priceAmount: Option<int>,
    inventory: nat,
    isActive: bool)

  /**
   * The part of the store one redemption reads and writes: the user's points,
   * the ledger, the stored product row (None when it does not exist), the
   * redemption and notification tables, and the clock.
   */
  datatype Store = Store(
    points: nat,
    ledger: Ledger,
    stock: Option<ProductRow>,
    redemptions: seq<Redemption>,
    notifications: seq<Notification>,
    clock: nat)

  datatype Redeemed = Redeemed(store: Store, result: Result<Redemption, RedemptionError>)

  /** The metadata the money path attaches to its debit. */
  function DebitMetadata(productId: nat): Metadata {
    map["product_id" := Int(productId)]
  }

  /** What the payment part settled: the points spent, the money spent and the currency recorded. */
  datatype Payment = Payment(pointsSpent: nat, moneySpent: int, currency: string)

  datatype Paid = Paid(store: Store, result: Result<Payment, RedemptionError>)

  /**
   * The payment part of `execute`, on the stored row: a points product
   * deducts its cost (None counting as 0) from a user who has enough; a
   * money product debits its price from the user's wallet, and only
   * insufficient balance is turned into a RedemptionServiceError.
   */
  function PayStep(s: Store, userId: nat, productId: nat, row: ProductRow, currency: string): (p: Paid)
    ensures p.result.Err? ==> p.store == s
  {
    if row.priceType == Points then
      var cost := row.pointsCost.GetOr(0);
      if s.points < cost then Paid(s, Err(RedemptionServiceError(NotEnoughPoints)))
      else Paid(s.(points := s.points - cost), Ok(Payment(cost, 0, currency)))
    else if row.priceAmount.None? then Paid(s, Err(InvalidOperation))
    else
      var price := row.priceAmount.value;
      var d := DebitStep(s.ledger, userId, currency, Decimal(price, 2), "Canje de " + row.name,
                         Some(DebitMetadata(productId)), s.clock);
      match d.result
      case Err(InsufficientBalance(_)) => Paid(s, Err(RedemptionServiceError(NotEnoughBalance)))
      case Err(e) => Paid(s, Err(WalletFailure(e)))
      case Ok(tx) =>
        Paid(s.(ledger := d.ledger, clock := s.clock + 1),
             Ok(Payment(0, if tx.amount < 0 then -tx.amount else price, tx.currency)))
  }

  /**
   * After the payment part: the product save (full_clean, then the inventory
   * update), the redemption row, and the notification. A rejected save
   * rolls back to `before`.
   */
  function Conclude(before: Store, paid: Store, userId: nat, productId: nat, row: ProductRow, cachedName: string,
                    pay: Payment, notes: Option<string>): (o: Redeemed)
    requires row.inventory > 0
    ensures o.result.Err? ==> o.store == before
  {
    match CleanError(row.priceType, row.pointsCost, row.priceAmount)
    case Some(e) => Redeemed(before, Err(Validation(e)))
    case None =>
      var red := Redemption(userId, productId, pay.pointsSpent, pay.moneySpent, pay.currency,
                            RedemptionStatus.Completed, notes.GetOr(""));
      var note := Notification(userId, BuildNotificationMessage(cachedName, pay.pointsSpent, pay.moneySpent, pay.currency),
                               paid.clock, false);
      Redeemed(paid.(stock := Some(row.(inventory := row.inventory - 1)),
                     redemptions := paid.redemptions + [red],
                     notifications := paid.notifications + [note],
                     clock := paid.clock + 1),
               Ok(red))
  }

  /**
   * `execute`: `cached` is the product object the service was built with,
   * `s.stock` the row the store holds under its id, `currency` the configured
   * default currency.
   */
  function RedeemStep(s: Store, userId: nat, productId: nat, cached: ProductRow, currency: string,
                      notes: Option<string>): (o: Redeemed)
    ensures o.result.Err? ==> o.store == s
  {
    if !cached.isActive then Redeemed(s, Err(RedemptionServiceError(ProductUnavailable)))
    else if cached.inventory == 0 then Redeemed(s, Err(RedemptionServiceError(OutOfStock)))
    else RedeemStored(s, userId, productId, cached.name, currency, notes)
  }

  /**
   * The transaction block of `execute`: the stored row is fetched and its
   * stock checked again, then the payment and the rest follow. Any failure
   * leaves `s` as it was.
   */
  function RedeemStored(s: Store, userId: nat, productId: nat, cachedName: string, currency: string,
                        notes: Option<string>): (o: Redeemed)
    ensures o.result.Err? ==> o.store == s
  {
    if s.stock.None? then Redeemed(s, Err(ProductDoesNotExist))
    else
      var row := s.stock.value;
      if row.inventory == 0 then Redeemed(s, Err(RedemptionServiceError(OutOfStock)))
      else
        var p := PayStep(s, userId, productId, row, currency);
        if p.result.Err? then Redeemed(s, Err(p.result.error))
        else Conclude(s, p.store, userId, productId, row, cachedName, p.result.value, notes)
  }

  // ------------------------------------------------------------ what the exchange promises

  /** Every failure leaves the store exactly as it was. */
  lemma RedeemFailureChangesNothing(s: Store, userId: nat, productId: nat, cached: ProductRow, currency: string,
                                    notes: Option<string>)
    ensures var o := RedeemStep(s, userId, productId, cached, currency, notes);
      o.result.Err? ==> o.store == s
  {
  }

  /**
   * The checks in order: an inactive product, then no stock on the passed
   * product, then a missing row, then no stock on the stored row; then the
   * points path refuses a user with fewer points than the cost, and the
   * money path turns insufficient balance into a RedemptionServiceError.
   */
  lemma RedeemRejections(s: Store, userId: nat, productId: nat, cached: ProductRow, currency: string,
                         notes: Option<string>)
    ensures var o := RedeemStep(s, userId, productId, cached, currency, notes);
      && (!cached.isActive ==> o.result == Err(RedemptionServiceError(ProductUnavailable)))
      && (cached.isActive && cached.inventory == 0 ==> o.result == Err(RedemptionServiceError(OutOfStock)))
      && (cached.isActive && cached.inventory > 0 && s.stock.None? ==> o.result == Err(ProductDoesNotExist))
      && (cached.isActive && cached.inventory > 0 && s.stock.Some? && s.stock.value.inventory == 0 ==>
            o.result == Err(RedemptionServiceError(OutOfStock)))
      && (cached.isActive && cached.inventory > 0 && s.stock.Some? && s.stock.value.inventory > 0
          && s.stock.value.priceType == Points && s.points < s.stock.value.pointsCost.GetOr(0) ==>
            o.result == Err(RedemptionServiceError(NotEnoughPoints)))
      && (cached.isActive && cached.inventory > 0 && s.stock.Some? && s.stock.value.inventory > 0
          && s.stock.value.priceType == Money && s.stock.value.priceAmount.Some?
          && s.stock.value.priceAmount.value > 0
          && (userId !in s.ledger.wallets || s.ledger.wallets[userId].balance < s.stock.value.priceAmount.value) ==>
            o.result == Err(RedemptionServiceError(NotEnoughBalance)))
  {
  }

  /**
   * A success decrements the stored stock by exactly one, appends exactly one
   * COMPLETED redemption (notes defaulting to "") and then exactly one unread
   * notification whose message describes what was spent.
   */
  lemma RedeemSuccessRecordsOnce(s: Store, userId: nat, productId: nat, cached: ProductRow, currency: string,
                                 notes: Option<string>)
    ensures var o := RedeemStep(s, userId, productId, cached, currency, notes);
      o.result.Ok? ==>
        var red := o.result.value;
        && s.stock.Some? && o.store.stock == Some(s.stock.value.(inventory := s.stock.value.inventory - 1))
        && o.store.redemptions == s.redemptions + [red]
        && red.user == userId && red.product == productId && red.status == RedemptionStatus.Completed
        && red.notes == notes.GetOr("")
        && |o.store.notifications| == |s.notifications| + 1
        && o.store.notifications[..|s.notifications|] == s.notifications
        && o.store.notifications[|s.notifications|].user == userId
        && !o.store.notifications[|s.notifications|].isRead
        && o.store.notifications[|s.notifications|].message
           == BuildNotificationMessage(cached.name, red.pointsSpent, red.moneySpent, red.currency)
  {
    var o := RedeemStep(s, userId, productId, cached, currency, notes);
    if o.result.Ok? {
      assert (o.store.notifications)[..|s.notifications|] == s.notifications;
    }
  }

  /**
   * The points path: it succeeds exactly when the stored product is a valid
   * points product (positive cost) the user can afford; then the points drop
   * by exactly the cost, the redemption records that cost, no money and the
   * configured currency, and the ledger is untouched.
   */
  lemma RedeemWithPoints(s: Store, userId: nat, productId: nat, cached: ProductRow, currency: string,
                         notes: Option<string>)
    requires cached.isActive && cached.inventory > 0
    requires s.stock.Some? && s.stock.value.inventory > 0 && s.stock.value.priceType == Points
    ensures var o := RedeemStep(s, userId, productId, cached, currency, notes);
      var cost := s.stock.value.pointsCost;
      && (o.result.Ok? <==> cost.Some? && cost.value > 0 && s.points >= cost.value)
      && (o.result.Ok? ==>
            && o.store.points == s.points - cost.value
            && o.result.value.pointsSpent == cost.value && o.result.value.moneySpent == 0
            && o.result.value.currency == currency
            && o.store.ledger == s.ledger)
  {
  }

  /**
   * The money path: it succeeds exactly when the stored price is positive and
   * the user's wallet covers it; then the wallet is debited exactly as a
   * direct debit of the price would, the redemption records no points, the
   * price as money spent and the wallet's currency, and points are untouched.
   */
  lemma RedeemWithMoney(s: Store, userId: nat, productId: nat, cached: ProductRow, currency: string,
                        notes: Option<string>)
    requires cached.isActive && cached.inventory > 0
    requires s.stock.Some? && s.stock.value.inventory > 0 && s.stock.value.priceType == Money
    ensures var o := RedeemStep(s, userId, productId, cached, currency, notes);
      var row := s.stock.value;
      && (row.priceAmount.None? ==> o.result == Err(InvalidOperation))
      && (row.priceAmount.Some? && row.priceAmount.value <= 0 ==>
            o.result == Err(WalletFailure(ServiceError(AmountMustBePositive))))
      && (o.result.Ok? <==>
            && row.priceAmount.Some? && row.priceAmount.value > 0
            && userId in s.ledger.wallets && s.ledger.wallets[userId].balance >= row.priceAmount.value)
      && (o.result.Ok? ==>
            var price := row.priceAmount.value;
            && o.store.points == s.points
            && o.store.ledger == DebitStep(s.ledger, userId, currency, Decimal(price, 2), "Canje de " + row.name,
                                           Some(DebitMetadata(productId)), s.clock).ledger
            && o.store.ledger.wallets[userId].balance == s.ledger.wallets[userId].balance - price
            && o.result.value.pointsSpent == 0 && o.result.value.moneySpent == price
            && o.result.value.currency == s.ledger.wallets[userId].currency)
  {
    var row := s.stock.value;
    if row.priceAmount.Some? {
      var price := row.priceAmount.value;
      QuantizeTwoPlaces(price);
    }
  }

  /** Points the user has spent on redemptions, according to the redemption table. */
  function PointsSpentBy(rs: seq<Redemption>, userId: nat): nat {
    if rs == [] then 0
    else PointsSpentBy(rs[..|rs| - 1], userId) + (if rs[|rs| - 1].user == userId then rs[|rs| - 1].pointsSpent else 0)
  }

  /** Money the user has spent on redemptions, according to the redemption table. */
  function MoneySpentBy(rs: seq<Redemption>, userId: nat): int {
    if rs == [] then 0
    else MoneySpentBy(rs[..|rs| - 1], userId) + (if rs[|rs| - 1].user == userId then rs[|rs| - 1].moneySpent else 0)
  }

  /** How many redemptions name the product. */
  function RedemptionsOf(rs: seq<Redemption>, productId: nat): nat {
    if rs == [] then 0
    else RedemptionsOf(rs[..|rs| - 1], productId) + (if rs[|rs| - 1].product == productId then 1 else 0)
  }

  /** Appending a redemption adds its points, its money and one unit to the tallies it belongs to. */
  lemma TalliesAppend(rs: seq<Redemption>, red: Redemption, userId: nat, productId: nat)
    ensures PointsSpentBy(rs + [red], userId) == PointsSpentBy(rs, userId) + (if red.user == userId then red.pointsSpent else 0)
    ensures MoneySpentBy(rs + [red], userId) == MoneySpentBy(rs, userId) + (if red.user == userId then red.moneySpent else 0)
    ensures RedemptionsOf(rs + [red], productId) == RedemptionsOf(rs, productId) + (if red.product == productId then 1 else 0)
  {
    assert (rs + [red])[..|rs|] == rs;
  }

  /** The user's wallet balance, 0.00 when there is no wallet. */
  function BalanceOf(l: Ledger, userId: nat): int {
    if userId in l.wallets then l.wallets[userId].balance else 0
  }

  /**
   * Nothing is lost or created by a redemption: the user's points plus the
   * points recorded as spent, the user's balance plus the money recorded as
   * spent, and the product's stock plus its redemption count are the same
   * before and after, whether it succeeds or fails.
   */
  lemma RedeemConserves(s: Store, userId: nat, productId: nat, cached: ProductRow, currency: string,
                        notes: Option<string>)
    ensures var o := RedeemStep(s, userId, productId, cached, currency, notes);
      && o.store.points + PointsSpentBy(o.store.redemptions, userId) == s.points + PointsSpentBy(s.redemptions, userId)
      && BalanceOf(o.store.ledger, userId) + MoneySpentBy(o.store.redemptions, userId)
         == BalanceOf(s.ledger, userId) + MoneySpentBy(s.redemptions, userId)
      && (s.stock.Some? ==>
            o.store.stock.Some?
            && o.store.stock.value.inventory + RedemptionsOf(o.store.redemptions, productId)
               == s.stock.value.inventory + RedemptionsOf(s.redemptions, productId))
  {
    var o := RedeemStep(s, userId, productId, cached, currency, notes);
    RedeemFailureChangesNothing(s, userId, productId, cached, currency, notes);
    if o.result.Ok? {
      var red := o.result.value;
      RedeemSuccessRecordsOnce(s, userId, productId, cached, currency, notes);
      TalliesAppend(s.redemptions, red, userId, productId);
      if s.stock.value.priceType == Money {
        RedeemWithMoney(s, userId, productId, cached, currency, notes);
      } else {
        RedeemWithPoints(s, userId, productId, cached, currency, notes);
      }
    }
  }

  /** The payment part keeps the ledger well formed and balanced. */
  lemma PayKeepsLedger(s: Store, userId: nat, productId: nat, row: ProductRow, currency: string)
    requires s.ledger.WellFormed() && s.ledger.Balanced()
    ensures var p := PayStep(s, userId, productId, row, currency);
      p.store.ledger.WellFormed() && p.store.ledger.Balanced()
  {
    if row.priceType != Points && row.priceAmount.Some? {
      DebitKeepsLedger(s.ledger, userId, currency, Decimal(row.priceAmount.value, 2), "Canje de " + row.name,
                       Some(DebitMetadata(productId)), s.clock);
    }
  }

  /** A redemption keeps the ledger well formed and balanced. */
  lemma RedeemKeepsLedger(s: Store, userId: nat, productId: nat, cached: ProductRow, currency: string,
                          notes: Option<string>)
    requires s.ledger.WellFormed() && s.ledger.Balanced()
    ensures var o := RedeemStep(s, userId, productId, cached, currency, notes);
      o.store.ledger.WellFormed() && o.store.ledger.Balanced()
  {
    if cached.isActive && cached.inventory != 0 && s.stock.Some? && s.stock.value.inventory != 0 {
      PayKeepsLedger(s, userId, productId, s.stock.value, currency);
    }
  }

  // ------------------------------------------------------------ the services

  function RowOf(p: Product): ProductRow
    reads p
  {
    ProductRow(p.name, p.priceType, p.pointsCost, p.priceAmount, p.inventory, p.isActive)
  }

  class RedeemProductService {
    const db: Db
    const user: User
    const product: Product
    const currencySetting: string

    constructor (db: Db, user: User, product: Product, currencySetting: string)
      ensures this.db == db && this.user == user && this.product == product
      ensures this.currencySetting == currencySetting
    {
      this.db := db;
      this.user := user;
      this.product := product;
      this.currencySetting := currencySetting;
    }

    /** The stored row of the product, as an object set (empty when there is none). */
    function StoredProduct(): set<Product>
      reads db
    {
      if product.id in db.products then {db.products[product.id]} else {}
    }

    /** The part of the store a redemption reads and writes. */
    function Snapshot(): Store
      reads db, user, StoredProduct()
    {
      Store(user.points, db.LedgerOf(),
            if product.id in db.products then Some(RowOf(db.products[product.id])) else None,
            db.redemptions, db.notifications, db.clock)
    }

    /** The payment part of `execute`: deducts the points or debits the wallet. */
    method Pay(stored: Product, wallet: WalletService) returns (p: Result<Payment, RedemptionError>)
      requires db.Valid() && user.id in db.users && db.users[user.id] == user
      requires product.id in db.products && db.products[product.id] == stored
      requires wallet.db == db && wallet.user == user && wallet.defaultCurrency == ConfiguredCurrency(currencySetting)
      modifies db`wallets, db`transactions, db`clock, user`points
      ensures db.Valid()
      ensures Paid(Snapshot(), p)
           == PayStep(old(Snapshot()), user.id, product.id, old(RowOf(stored)), ConfiguredCurrency(currencySetting))
    {
      ghost var s0 := Snapshot();
      if stored.RequiresPoints() {
        var cost := stored.pointsCost.GetOr(0);
        if user.points < cost {
          return Err(RedemptionServiceError(NotEnoughPoints));
        }
        var _ := user.DeductPoints(cost);
        p := Ok(Payment(cost, 0, wallet.defaultCurrency));
        assert Snapshot() == s0.(points := s0.points - cost);
      } else {
        if stored.priceAmount.None? {
          return Err(InvalidOperation);
        }
        var price := stored.priceAmount.value;
        var debit := wallet.Debit(Decimal(price, 2), "Canje de " + stored.name, Some(DebitMetadata(stored.id)));
        match debit {
          case Err(InsufficientBalance(_)) =>
            p := Err(RedemptionServiceError(NotEnoughBalance));
          case Err(e) =>
            p := Err(WalletFailure(e));
          case Ok(tx) =>
            p := Ok(Payment(0, if tx.amount < 0 then -tx.amount else price, tx.currency));
        }
      }
    }

    /** Redeems one unit of the product for the user, or raises and changes nothing. */
    method Execute(notes: Option<string>) returns (r: Result<Redemption, RedemptionError>)
      requires db.Valid() && user.id in db.users && db.users[user.id] == user
      modifies db`wallets, db`transactions, db`clock, db`redemptions, db`notifications, user`points, StoredProduct()
      ensures db.Valid()
      ensures Redeemed(Snapshot(), r)
           == RedeemStep(old(Snapshot()), user.id, product.id, old(RowOf(product)), ConfiguredCurrency(currencySetting), notes)
    {
      if !product.isActive {
        return Err(RedemptionServiceError(ProductUnavailable));
      }
      if product.inventory <= 0 {
        return Err(RedemptionServiceError(OutOfStock));
      }
      var wallet := new WalletService(db, user, currencySetting);
      r := RedeemStoredRow(wallet, notes);
    }

    /** The transaction block of `execute`: everything after the checks on the cached product. */
    method RedeemStoredRow(wallet: WalletService, notes: Option<string>) returns (r: Result<Redemption, RedemptionError>)
      requires db.Valid() && user.id in db.users && db.users[user.id] == user
      requires wallet.db == db && wallet.user == user && wallet.defaultCurrency == ConfiguredCurrency(currencySetting)
      modifies db`wallets, db`transactions, db`clock, db`redemptions, db`notifications, user`points, StoredProduct()
      ensures db.Valid()
      ensures Redeemed(Snapshot(), r)
           == RedeemStored(old(Snapshot()), user.id, product.id, product.name, ConfiguredCurrency(currencySetting), notes)
    {
      ghost var s0, cur := Snapshot(), ConfiguredCurrency(currencySetting);
      if product.id !in db.products {
        return Err(ProductDoesNotExist);
      }
      var stored := db.products[product.id];
      if stored.inventory <= 0 {
        return Err(RedemptionServiceError(OutOfStock));
      }
      ghost var row := RowOf(stored);
      var savedPoints, savedWallets, savedTransactions, savedClock := user.points, db.wallets, db.transactions, db.clock;
      var pay := Pay(stored, wallet);
      ghost var paid := PayStep(s0, user.id, product.id, row, cur);
      if pay.Err? {
        return Err(pay.error);
      }
      ghost var done := Conclude(s0, paid.store, user.id, product.id, row, product.name, pay.value, notes);
      var invalid := CleanError(stored.priceType, stored.pointsCost, stored.priceAmount);
      if invalid.Some? {
        // the atomic block rolls back the payment
        user.points, db.wallets, db.transactions, db.clock := savedPoints, savedWallets, savedTransactions, savedClock;
        assert Snapshot() == s0;
        return Err(Validation(invalid.value));
      }
      assert done == Conclude(paid.store, paid.store, user.id, product.id, row, product.name, pay.value, notes);
      r := Record(stored, pay.value, notes);
    }

    /**
     * The end of a successful `execute`: one unit leaves the stock, the
     * redemption row is written, then the notification.
     */
    method Record(stored: Product, pay: Payment, notes: Option<string>) returns (r: Result<Redemption, RedemptionError>)
      requires db.Valid() && user.id in db.users
      requires product.id in db.products && db.products[product.id] == stored && stored.inventory > 0
      requires CleanError(stored.priceType, stored.pointsCost, stored.priceAmount).None?
      modifies db`redemptions, db`notifications, db`clock, stored`inventory
      ensures db.Valid()
      ensures Redeemed(Snapshot(), r)
           == Conclude(old(Snapshot()), old(Snapshot()), user.id, product.id, old(RowOf(stored)), product.name, pay, notes)
    {
      stored.inventory := stored.inventory - 1;
      var redemption := Redemption(user.id, stored.id, pay.pointsSpent, pay.moneySpent, pay.currency,
                                   RedemptionStatus.Completed, notes.GetOr(""));
      db.InsertRedemption(redemption);
      var message := BuildNotificationMessage(product.name, pay.pointsSpent, pay.moneySpent, pay.currency);
      var _ := db.InsertNotification(user.id, message);
      r := Ok(redemption);
    }
  }

  /** `generate_welcome_notification`: one unread welcome message for the user, stamped now. */
  method GenerateWelcomeNotification(db: Db, user: User)
    requires db.Valid() && user.id in db.users
    modifies db`notifications, db`clock
    ensures db.Valid()
    ensures db.notifications == old(db.notifications) + [Notification(user.id, WelcomeMessage, old(db.clock), false)]
    ensures db.clock > old(db.clock)
  {
    var _ := db.InsertNotification(user.id, WelcomeMessage);
  }
}
