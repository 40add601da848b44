/** The customer context: the Customer record whose points balance the rental core raises. */
module Customers {

  /** The stored columns of a customer, apart from its id. */
  datatype CustomerRow = CustomerRow(name: string, points: int)

  /** The effect of addPoints(p) on a customer's columns. */
  function WithPointsAdded(row: CustomerRow, p: int): (r: CustomerRow)
    ensures r.name == row.name && r.points - row.points == p
  {
    row.(points := row.points + p)
  }

  /** Adding nothing changes nothing. */
  lemma AddZeroPoints(row: CustomerRow)
    ensures WithPointsAdded(row, 0) == row
  {
  }

  /** Two additions in a row act as one addition of their sum. */
  lemma AddPointsTwice(row: CustomerRow, a: int, b: int)
    ensures WithPointsAdded(WithPointsAdded(row, a), b) == WithPointsAdded(row, a + b)
  {
  }

  class Customer {
    var id: int
    var name: string
    var points: int

    function Row(): CustomerRow
      reads this
    {
      CustomerRow(name, points)
    }

    /** The all-arguments constructor. */
    constructor (id: int, name: string, points: int)
      ensures this.id == id && this.name == name && this.points == points
    {
      this.id := id;
      this.name := name;
      this.points := points;
    }

    /** Raises the balance by exactly p; id and name stay as they are. */
    method AddPoints(p: int)
      modifies this`points
      ensures points == old(points) + p
      ensures id == old(id) && Row() == WithPointsAdded(old(Row()), p)
    {
      points := points + p;
    }
  }
}
