/**
 * The user account and its points counter. Points are a non-negative
 * integer, changed only by AddPoints and DeductPoints, which refuse negative
 * amounts and refuse to take the counter below zero.
 */
module UserModels {
  import opened Common

  const NegativeAddMessage := "La cantidad de puntos a agregar debe ser positiva."
  const NegativeDeductMessage := "La cantidad de puntos a restar debe ser positiva."
  const NotEnoughPointsMessage := "El usuario no cuenta con puntos suficientes."

  /** The counter after adding `amount`, or the ValueError message. */
  function PointsAfterAdd(points: nat, amount: int): (r: Result<nat, string>)
    ensures r.Err? <==> amount < 0
    ensures r.Ok? ==> r.value == points + amount && r.value >= points
  {
    if amount < 0 then Err(NegativeAddMessage) else Ok(points + amount)
  }

  /** The counter after deducting `amount`, or the ValueError message. */
  function PointsAfterDeduct(points: nat, amount: int): (r: Result<nat, string>)
    ensures r.Err? <==> amount < 0 || points < amount
    ensures r.Ok? ==> r.value == points - amount && r.value <= points
  {
    if amount < 0 then Err(NegativeDeductMessage)
    else if points < amount then Err(NotEnoughPointsMessage)
    else Ok(points - amount)
  }

  /** Deducting n points and then adding n back restores the original counter. */
  lemma DeductThenAddRestores(points: nat, amount: int)
    requires PointsAfterDeduct(points, amount).Ok?
    ensures PointsAfterAdd(PointsAfterDeduct(points, amount).value, amount) == Ok(points)
  {
  }

  /** Adding n points and then deducting n leaves the counter where it was. */
  lemma AddThenDeductRestores(points: nat, amount: int)
    requires PointsAfterAdd(points, amount).Ok?
    ensures PointsAfterDeduct(PointsAfterAdd(points, amount).value, amount) == Ok(points)
  {
  }

  class User {
    const id: nat
    const username: string
    const email: string
    var points: nat

    /** A new account starts with no points. */
    constructor (id: nat, username: string, email: string)
      ensures this.id == id && this.username == username && this.email == email
      ensures points == 0
    {
      this.id := id;
      this.username := username;
      this.email := email;
      points := 0;
    }

    /** Increases the counter by `amount`; a negative amount raises ValueError and changes nothing. */
    method AddPoints(amount: int) returns (err: Option<string>)
      modifies this`points
      ensures PointsAfterAdd(old(points), amount).Ok? ==> err.None? && points == PointsAfterAdd(old(points), amount).value
      ensures PointsAfterAdd(old(points), amount).Err? ==> err == Some(PointsAfterAdd(old(points), amount).error) && points == old(points)
    {
      if amount < 0 {
        return Some(NegativeAddMessage);
      }
      points := points + amount;
      err := None;
    }

    /**
     * Decreases the counter by `amount`; a negative amount, or one larger
     * than the counter, raises ValueError and changes nothing.
     */
    method DeductPoints(amount: int) returns (err: Option<string>)
      modifies this`points
      ensures PointsAfterDeduct(old(points), amount).Ok? ==> err.None? && points == PointsAfterDeduct(old(points), amount).value
      ensures PointsAfterDeduct(old(points), amount).Err? ==> err == Some(PointsAfterDeduct(old(points), amount).error) && points == old(points)
    {
      if amount < 0 {
        return Some(NegativeDeductMessage);
      }
      if points < amount {
        return Some(NotEnoughPointsMessage);
      }
      points := points - amount;
      err := None;
    }
  }
}
