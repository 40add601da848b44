/** DefaultLoyaltyPolicy: the points a rental earns, by car category. */
module Loyalty {
  import opened Inventory

  function PointsFor(t: CarType): (points: int)
    ensures 1 <= points <= 5
  {
    match t
    case PREMIUM => 5
    case SUV => 3
    case SMALL => 1
  }

  /** The dearer the category, the more points: PREMIUM > SUV > SMALL, all strictly positive. */
  lemma PointsRanking()
    ensures PointsFor(PREMIUM) == 5 && PointsFor(SUV) == 3 && PointsFor(SMALL) == 1
    ensures PointsFor(PREMIUM) > PointsFor(SUV) > PointsFor(SMALL) > 0
  {
  }
}
