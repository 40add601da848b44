/** The inventory context: car categories and the Car record the rental core loads, flips and saves. */
module Inventory {

  /** The closed set of car categories that drives both pricing and loyalty. */
  datatype CarType = PREMIUM | SUV | SMALL

  /** The stored columns of a car, apart from its id (the key it is stored under). */
  datatype CarRow = CarRow(brand: string, model: string, carType: CarType, available: bool)

  /** A car as the domain sees it: every field has a setter and is updated in place. */
  class Car {
    var id: int
    var brand: string
    var model: string
    var carType: CarType
    var available: bool

    /** Everything but the id. */
    function Row(): (row: CarRow)
      reads this
    {
      CarRow(brand, model, carType, available)
    }

    constructor (id: int, brand: string, model: string, carType: CarType, available: bool)
      ensures this.id == id && Row() == CarRow(brand, model, carType, available)
    {
      this.id := id;
      this.brand := brand;
      this.model := model;
      this.carType := carType;
      this.available := available;
    }

    /** Lombok's setAvailable: only the availability flag changes. */
    method SetAvailable(available: bool)
      modifies this`available
      ensures this.available == available
      ensures id == old(id) && Row() == old(Row()).(available := available)
    {
      this.available := available;
    }

    /** Lombok's setId: only the id changes. */
    method SetId(id: int)
      modifies this`id
      ensures this.id == id && Row() == old(Row())
    {
      this.id := id;
    }
  }
}
