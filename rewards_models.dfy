/**
 * Redemption records, user notifications, and the text a redemption is
 * displayed with. Money is integer cents.
 */
module RewardsModels {
  import opened Common
  import opened Text
  import WalletModels

  datatype RedemptionStatus = Completed | Pending | Cancelled

  /** One exchange of points or money for a product; `user` and `product` are row ids. */
  datatype Redemption = Redemption(
    user: nat,
    product: nat,
    pointsSpent: nat,
    moneySpent: int,
    currency: string,
    status: RedemptionStatus,
    notes: string)

  /** A redemption row with every column at its default. */
  function NewRedemption(user: nat, product: nat): Redemption {
    Redemption(user, product, 0, 0, WalletModels.DefaultCurrency, Completed, "")
  }

  /** A message for a user; new notifications are unread. */
  datatype Notification = Notification(user: nat, message: string, createdAt: nat, isRead: bool)

  function PointsPart(pointsSpent: nat): string {
    NatToString(pointsSpent) + " pts"
  }

  function MoneyPart(moneySpent: nat, currency: string): string {
    FormatCents(moneySpent) + " " + currency
  }

  /** The cost shown in parentheses: the parts that apply, joined by ", ", or "sin costo". */
  function CostDisplay(pointsSpent: nat, moneySpent: int, currency: string): string {
    var parts :=
      (if pointsSpent != 0 then [PointsPart(pointsSpent)] else [])
      + (if moneySpent > 0 then [MoneyPart(moneySpent, currency)] else []);
    if parts == [] then "sin costo" else Join(parts, ", ")
  }

  /**
   * `str(redemption)`: user, product and cost. The text in parentheses reads
   * "sin costo" exactly when the redemption spent nothing.
   */
  function Display(r: Redemption, username: string, productName: string): (s: string)
    ensures var head := username + " -> " + productName + " (";
      && |head| < |s| && s[..|head|] == head && s[|s| - 1] == ')'
      && (s[|head|..|s| - 1] == "sin costo" <==> r.pointsSpent == 0 && r.moneySpent <= 0)
  {
    var head := username + " -> " + productName + " (";
    var cost := CostDisplay(r.pointsSpent, r.moneySpent, r.currency);
    var s := head + cost + ")";
    NoCostShownExactlyWhenFree(r.pointsSpent, r.moneySpent, r.currency);
    assert s[..|head|] == head;
    assert s[|head|..|s| - 1] == cost;
    s
  }

  predicate StartsWith(s: string, prefix: string) {
    |prefix| <= |s| && s[..|prefix|] == prefix
  }

  /** The parts of the cost, in order: points first, then money, joined by ", ". */
  lemma CostDisplayComposition(pointsSpent: nat, moneySpent: int, currency: string)
    ensures pointsSpent != 0 && moneySpent > 0 ==>
      CostDisplay(pointsSpent, moneySpent, currency) == PointsPart(pointsSpent) + ", " + MoneyPart(moneySpent, currency)
    ensures pointsSpent != 0 && moneySpent <= 0 ==> CostDisplay(pointsSpent, moneySpent, currency) == PointsPart(pointsSpent)
    ensures pointsSpent == 0 && moneySpent > 0 ==> CostDisplay(pointsSpent, moneySpent, currency) == MoneyPart(moneySpent, currency)
  {
    if pointsSpent != 0 && moneySpent > 0 {
      var parts := [PointsPart(pointsSpent), MoneyPart(moneySpent, currency)];
      assert [PointsPart(pointsSpent)] + [MoneyPart(moneySpent, currency)] == parts;
      assert parts[1..] == [MoneyPart(moneySpent, currency)];
      assert Join(parts[1..], ", ") == MoneyPart(moneySpent, currency);
      assert CostDisplay(pointsSpent, moneySpent, currency) == Join(parts, ", ");
    }
  }

  /** "sin costo" is shown exactly when no points and no money were spent. */
  lemma NoCostShownExactlyWhenFree(pointsSpent: nat, moneySpent: int, currency: string)
    ensures CostDisplay(pointsSpent, moneySpent, currency) == "sin costo" <==> pointsSpent == 0 && moneySpent <= 0
  {
    var d := CostDisplay(pointsSpent, moneySpent, currency);
    CostDisplayComposition(pointsSpent, moneySpent, currency);
    if pointsSpent != 0 {
      assert d[0] == NatToString(pointsSpent)[0];
    } else if moneySpent > 0 {
      assert d[0] == FormatCents(moneySpent)[0];
      assert d[0] == NatToString(moneySpent / 100)[0];
    }
  }

  /** The display begins with "<n> pts" exactly when n points were spent. */
  lemma PointsShownExactlyWhenSpent(pointsSpent: nat, moneySpent: int, currency: string)
    ensures StartsWith(CostDisplay(pointsSpent, moneySpent, currency), PointsPart(pointsSpent)) <==> pointsSpent != 0
  {
    var d := CostDisplay(pointsSpent, moneySpent, currency);
    var p := PointsPart(pointsSpent);
    CostDisplayComposition(pointsSpent, moneySpent, currency);
    if pointsSpent != 0 {
      if moneySpent > 0 {
        assert d == p + (", " + MoneyPart(moneySpent, currency));
      }
    } else {
      assert p == "0 pts";
      ZeroPointsNotShown(moneySpent, currency);
    }
  }

  /** With no points spent the display starts neither with '0' nor with a space in second place. */
  lemma ZeroPointsNotShown(moneySpent: int, currency: string)
    ensures var d := CostDisplay(0, moneySpent, currency); |d| >= 2 && (d[0] != '0' || d[1] != ' ')
  {
    CostDisplayComposition(0, moneySpent, currency);
    if moneySpent > 0 {
      var f := FormatCents(moneySpent);
      FormatCentsLead(moneySpent);
      assert CostDisplay(0, moneySpent, currency) == f + (" " + currency);
    }
  }

  /** A money amount appears exactly when money was spent: only the money part holds a decimal point. */
  lemma MoneyShownExactlyWhenSpent(pointsSpent: nat, moneySpent: int, currency: string)
    ensures moneySpent > 0 ==> '.' in CostDisplay(pointsSpent, moneySpent, currency)
    ensures moneySpent <= 0 ==> '.' !in CostDisplay(pointsSpent, moneySpent, currency)
  {
    var d := CostDisplay(pointsSpent, moneySpent, currency);
    CostDisplayComposition(pointsSpent, moneySpent, currency);
    if moneySpent > 0 {
      var f := FormatCents(moneySpent);
      var k := if pointsSpent != 0 then |PointsPart(pointsSpent) + ", "| else 0;
      assert d[k + |f| - 3] == f[|f| - 3] == '.';
    } else if pointsSpent != 0 {
      var s := NatToString(pointsSpent);
      assert forall i :: 0 <= i < |d| ==> d[i] != '.' by {
        forall i | 0 <= i < |d| ensures d[i] != '.' {
          if i < |s| { assert d[i] == s[i] && IsDigit(s[i]); }
        }
      }
    }
  }

  /** A redemption with every default displays as free. */
  lemma DefaultRedemptionIsFree(user: nat, product: nat)
    ensures NewRedemption(user, product).status == Completed
    ensures CostDisplay(NewRedemption(user, product).pointsSpent, NewRedemption(user, product).moneySpent,
      NewRedemption(user, product).currency) == "sin costo"
  {
    NoCostShownExactlyWhenFree(0, 0, WalletModels.DefaultCurrency);
  }
}
