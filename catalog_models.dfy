/**
 * Catalog products: how a product is priced (in points or in money), its
 * stock and its validation rule `clean`, which makes the two prices mutually
 * exclusive. Money amounts are integer cents (the price column holds two
 * fraction digits).
 */
module CatalogModels {
  import opened Common

  /** The declared choices of `price_type`. */
  datatype PriceType = Points | Money

  /** A field-level validation error, as `clean` raises it. */
  datatype FieldError = FieldError(field: string, message: string)

  const PointsCostRequired := "Debes indicar el costo en puntos para este producto."
  const PriceAmountRequired := "Debes indicar el precio en dinero para este producto."
  const PriceMustBePositive := "El precio debe ser mayor a cero."

  /** The error `clean` raises for these prices, if any. */
  function CleanError(priceType: PriceType, pointsCost: Option<nat>, priceAmount: Option<int>): (r: Option<FieldError>)
    ensures r.Some? ==> r.value.field == (if priceType == Points then "points_cost" else "price_amount")
  {
    match priceType
    case Points =>
      // `not self.points_cost` holds for None and for 0
      if pointsCost.None? || pointsCost.value == 0 then Some(FieldError("points_cost", PointsCostRequired))
      else None
    case Money =>
      if priceAmount.None? then Some(FieldError("price_amount", PriceAmountRequired))
      else if priceAmount.value <= 0 then Some(FieldError("price_amount", PriceMustBePositive))
      else None
  }

  /** The prices `clean` leaves behind when it accepts: the other price is cleared. */
  function CleanedPrices(priceType: PriceType, pointsCost: Option<nat>, priceAmount: Option<int>): (Option<nat>, Option<int>) {
    match priceType
    case Points => (pointsCost, None)
    case Money => (None, priceAmount)
  }

  /** Exactly one price is set, it is the one the price type names, and it is positive. */
  predicate PricesConsistent(priceType: PriceType, pointsCost: Option<nat>, priceAmount: Option<int>) {
    match priceType
    case Points => pointsCost.Some? && pointsCost.value > 0 && priceAmount.None?
    case Money => priceAmount.Some? && priceAmount.value > 0 && pointsCost.None?
  }

  /** `clean` accepts exactly the products whose price of their own type is set and positive. */
  lemma CleanAcceptsExactly(priceType: PriceType, pointsCost: Option<nat>, priceAmount: Option<int>)
    ensures CleanError(priceType, pointsCost, priceAmount).None? <==>
      match priceType
      case Points => pointsCost.Some? && pointsCost.value > 0
      case Money => priceAmount.Some? && priceAmount.value > 0
  {
  }

  /** After a successful `clean` exactly one price is set, matching the price type; running `clean` again accepts and changes nothing. */
  lemma CleanEstablishesConsistency(priceType: PriceType, pointsCost: Option<nat>, priceAmount: Option<int>)
    requires CleanError(priceType, pointsCost, priceAmount).None?
    ensures var (pc, pa) := CleanedPrices(priceType, pointsCost, priceAmount);
      && PricesConsistent(priceType, pc, pa)
      && CleanError(priceType, pc, pa).None?
      && CleanedPrices(priceType, pc, pa) == (pc, pa)
  {
  }

  class Product {
    const id: nat
    const name: string
    var priceType: PriceType
    var pointsCost: Option<nat>
    var priceAmount: Option<int>
    var inventory: nat
    var isActive: bool

    /** A product row with the model's defaults: priced in points, no stock, active. */
    constructor (id: nat, name: string)
      ensures this.id == id && this.name == name
      ensures priceType == Points && pointsCost.None? && priceAmount.None?
      ensures inventory == 0 && isActive
    {
      this.id := id;
      this.name := name;
      priceType := Points;
      pointsCost := None;
      priceAmount := None;
      inventory := 0;
      isActive := true;
    }

    predicate RequiresPoints()
      reads this
    {
      priceType == Points
    }

    predicate RequiresMoney()
      reads this
    {
      priceType == Money
    }

    /** Every product requires exactly one of points and money. */
    lemma RequiresExactlyOne()
      ensures RequiresPoints() != RequiresMoney()
    {
    }

    /**
     * Validates the prices and clears the price of the other kind: raises
     * the error CleanError names and changes nothing, or accepts.
     */
    method Clean() returns (err: Option<FieldError>)
      modifies this`pointsCost, this`priceAmount
      ensures err == CleanError(priceType, old(pointsCost), old(priceAmount))
      ensures err.Some? ==> pointsCost == old(pointsCost) && priceAmount == old(priceAmount)
      ensures err.None? ==> (pointsCost, priceAmount) == CleanedPrices(priceType, old(pointsCost), old(priceAmount))
      ensures err.None? ==> PricesConsistent(priceType, pointsCost, priceAmount)
    {
      if priceType == Points {
        if pointsCost.None? || pointsCost.value == 0 {
          return Some(FieldError("points_cost", PointsCostRequired));
        }
        priceAmount := None;
      } else if priceType == Money {
        if priceAmount.None? {
          return Some(FieldError("price_amount", PriceAmountRequired));
        }
        if priceAmount.value <= 0 {
          return Some(FieldError("price_amount", PriceMustBePositive));
        }
        pointsCost := None;
      }
      err := None;
    }
  }
}
