/** In-memory stand-ins for every collaborator the rental workflows are built with: the
    load/save ports over the car, customer and rental tables, the pricing and loyalty policies,
    and a log of every call made to them, in order. */
module Ports {
  import opened Wrappers
  import opened Inventory
  import opened Customers
  import opened Rentals
  import opened RentalPersistence
  import opened Errors
  import Pricing
  import Loyalty

  /** One call to a collaborator, with the arguments it was given. */
  datatype Call =
    | LoadCarCall(carId: int)
    | SaveCarCall(carId: int, car: CarRow)
    | LoadCustomerCall(customerId: int)
    | SaveCustomerCall(customerId: int, customer: CustomerRow)
    | LoadRentalCall(rentalId: int)
    | SaveRentalCall(entity: RentalEntity)
    | BasePriceCall(carType: CarType, days: int)
    | PointsForCall(carType: CarType)
    | LatePerDayCall(carType: CarType)
  {
    predicate IsSave() {
      SaveCarCall? || SaveCustomerCall? || SaveRentalCall?
    }
  }

  /** The three tables, the rental id generator and the call log. */
  datatype Db = Db(
    cars: map<int, CarRow>,
    customers: map<int, CustomerRow>,
    rentals: map<int, RentalEntity>,
    nextRentalId: int,
    log: seq<Call>)
  {
    /** Every stored rental row carries the key it is stored under. */
    predicate Valid() {
      forall k :: k in rentals ==> rentals[k].id == Some(k)
    }

    /** Same tables and id generator; the log may differ. */
    predicate SameTables(other: Db) {
      cars == other.cars && customers == other.customers && rentals == other.rentals
      && nextRentalId == other.nextRentalId
    }

    function Logged(c: Call): (db: Db)
      ensures db.SameTables(this) && db.log == log + [c]
    {
      this.(log := log + [c])
    }

    /** The id a save of `e` stores it under: its own, or the next generated one. */
    function IdFor(e: RentalEntity): int {
      if e.id.Some? then e.id.value else nextRentalId
    }

    /** repo.save(e): a row without an id gets the next generated id. */
    function SaveRental(e: RentalEntity): (db: Db)
      ensures db.rentals == rentals[IdFor(e) := e.(id := Some(IdFor(e)))]
      ensures db.nextRentalId == if e.id.None? then nextRentalId + 1 else nextRentalId
      ensures db.cars == cars && db.customers == customers
      ensures db.log == log + [SaveRentalCall(e)]
      ensures Valid() ==> db.Valid()
    {
      var k := IdFor(e);
      Db(cars, customers, rentals[k := e.(id := Some(k))],
         if e.id.None? then nextRentalId + 1 else nextRentalId,
         log + [SaveRentalCall(e)])
    }

    function SaveCar(id: int, row: CarRow): (db: Db)
      ensures db.cars == cars[id := row] && db.customers == customers && db.rentals == rentals
      ensures db.nextRentalId == nextRentalId && db.log == log + [SaveCarCall(id, row)]
    {
      this.(cars := cars[id := row], log := log + [SaveCarCall(id, row)])
    }

    function SaveCustomer(id: int, row: CustomerRow): (db: Db)
      ensures db.customers == customers[id := row] && db.cars == cars && db.rentals == rentals
      ensures db.nextRentalId == nextRentalId && db.log == log + [SaveCustomerCall(id, row)]
    {
      this.(customers := customers[id := row], log := log + [SaveCustomerCall(id, row)])
    }

    /** byId(id) of the rental adapter: empty exactly when no row has that id. */
    function RentalById(id: int): (r: Option<RentalData>)
      ensures r.None? <==> id !in rentals
      ensures r.Some? ==> ToEntity(r.value) == rentals[id]
    {
      if id in rentals then
        MappingRoundTrip(ToDomain(rentals[id]), rentals[id]);
        Some(ToDomain(rentals[id]))
      else None
    }
  }

  /** Saving a rental through the adapter and loading it by the id it was given returns the
      same eight fields, with the id filled in when it was missing; no other row changes. */
  lemma SaveThenLoad(db: Db, r: RentalData)
    ensures var k := db.IdFor(ToEntity(r));
      && db.SaveRental(ToEntity(r)).RentalById(k) == Some(r.(id := Some(k)))
      && (r.id.Some? ==> k == r.id.value)
      && (r.id.None? ==> k == db.nextRentalId)
      && forall j :: j != k ==> db.SaveRental(ToEntity(r)).RentalById(j) == db.RentalById(j)
  {
    var k := db.IdFor(ToEntity(r));
    MappingRoundTrip(r.(id := Some(k)), ToEntity(r));
    assert ToEntity(r).(id := Some(k)) == ToEntity(r.(id := Some(k)));
  }

  /** What a workflow returns, together with the state it leaves behind. */
  datatype Step<+T> = Step(result: Result<T, Failure>, db: Db)

  class Backend {
    const pricing: Pricing.PricingPolicy
    var cars: map<int, CarRow>
    var customers: map<int, CustomerRow>
    var rentals: map<int, RentalEntity>
    var nextRentalId: int
    var log: seq<Call>

    function State(): Db
      reads this
    {
      Db(cars, customers, rentals, nextRentalId, log)
    }

    constructor (pricing: Pricing.PricingPolicy, cars: map<int, CarRow>,
                 customers: map<int, CustomerRow>, rentals: map<int, RentalEntity>, nextRentalId: int)
      ensures this.pricing == pricing
      ensures State() == Db(cars, customers, rentals, nextRentalId, [])
    {
      this.pricing := pricing;
      this.cars := cars;
      this.customers := customers;
      this.rentals := rentals;
      this.nextRentalId := nextRentalId;
      this.log := [];
    }

    /** LoadCar: a fresh Car built from the row, or null when there is none. */
    method LoadCar(id: int) returns (car: Car?)
      modifies this
      ensures State() == old(State()).Logged(LoadCarCall(id))
      ensures car == null <==> id !in cars
      ensures car != null ==> fresh(car) && car.id == id && car.Row() == cars[id]
    {
      log := log + [LoadCarCall(id)];
      if id in cars {
        var row := cars[id];
        car := new Car(id, row.brand, row.model, row.carType, row.available);
      } else {
        car := null;
      }
    }

    /** SaveCar: the car's columns are written under its id. */
    method SaveCar(car: Car)
      modifies this
      ensures State() == old(State()).SaveCar(car.id, car.Row())
    {
      cars := cars[car.id := car.Row()];
      log := log + [SaveCarCall(car.id, car.Row())];
    }

    method LoadCustomer(id: int) returns (customer: Customer?)
      modifies this
      ensures State() == old(State()).Logged(LoadCustomerCall(id))
      ensures customer == null <==> id !in customers
      ensures customer != null ==> fresh(customer) && customer.id == id && customer.Row() == customers[id]
    {
      log := log + [LoadCustomerCall(id)];
      if id in customers {
        var row := customers[id];
        customer := new Customer(id, row.name, row.points);
      } else {
        customer := null;
      }
    }

    method SaveCustomer(customer: Customer)
      modifies this
      ensures State() == old(State()).SaveCustomer(customer.id, customer.Row())
    {
      customers := customers[customer.id := customer.Row()];
      log := log + [SaveCustomerCall(customer.id, customer.Row())];
    }

    /** The rental adapter's byId: a fresh reconstituted Rental, or null. */
    method LoadRental(id: int) returns (rental: Rental?)
      modifies this
      ensures State() == old(State()).Logged(LoadRentalCall(id))
      ensures rental == null <==> id !in rentals
      ensures rental != null ==> fresh(rental) && Some(rental.Data()) == State().RentalById(id)
    {
      log := log + [LoadRentalCall(id)];
      if id in rentals {
        var d := ToDomain(rentals[id]);
        rental := new Rental.Reconstitute(d.id, d.customerId, d.carId, d.carType, d.startDate,
                                          d.daysBooked, d.prepaidAmount, d.status);
      } else {
        rental := null;
      }
    }

    /** The rental adapter's save: the row is written, and a rental that had no id is given the
        generated one in place; the same object is returned. */
    method SaveRental(rental: Rental) returns (saved: Rental)
      modifies this, rental`id
      ensures saved == rental
      ensures State() == old(State()).SaveRental(ToEntity(old(rental.Data())))
      ensures rental.Data() == WithId(old(rental.Data()), old(State()).IdFor(ToEntity(old(rental.Data()))))
      ensures old(rental.id).Some? ==> rental.id == old(rental.id)
      ensures old(rental.id).None? ==> rental.id == Some(old(nextRentalId))
    {
      var e := ToEntity(rental.Data());
      var k := if e.id.Some? then e.id.value else nextRentalId;
      rentals := rentals[k := e.(id := Some(k))];
      if e.id.None? {
        nextRentalId := nextRentalId + 1;
      }
      log := log + [SaveRentalCall(e)];
      if rental.id == None {
        rental.AssignId(k);
      }
      saved := rental;
    }

    method BasePrice(t: CarType, days: int) returns (price: real)
      modifies this
      ensures price == Pricing.BasePrice(pricing, t, days)
      ensures State() == old(State()).Logged(BasePriceCall(t, days))
    {
      price := Pricing.ComputeBasePrice(pricing, t, days);
      log := log + [BasePriceCall(t, days)];
    }

    method LatePerDay(t: CarType) returns (fee: real)
      modifies this
      ensures fee == Pricing.LatePerDay(pricing, t)
      ensures State() == old(State()).Logged(LatePerDayCall(t))
    {
      fee := Pricing.LatePerDay(pricing, t);
      log := log + [LatePerDayCall(t)];
    }

    method PointsFor(t: CarType) returns (points: int)
      modifies this
      ensures points == Loyalty.PointsFor(t)
      ensures State() == old(State()).Logged(PointsForCall(t))
    {
      points := Loyalty.PointsFor(t);
      log := log + [PointsForCall(t)];
    }
  }
}
