/** RentCarUseCase: open a rental. Validate, load the car then the customer, check
    availability, price and award points, then save the rental, the car and the customer. */
module RentCar {
  import opened Wrappers
  import opened Inventory
  import opened Customers
  import opened Rentals
  import opened RentalPersistence
  import opened Errors
  import opened Ports
  import Pricing
  import Loyalty

  datatype Command = Command(customerId: int, carId: int, days: int)

  datatype Receipt = Receipt(rentalId: int, prepaidAmount: real, loyaltyPointsAwarded: int)

  const DaysMustBePositive := "days must be > 0"
  const CarNotAvailable := "car is not available"

  /** The rental a successful call stores, before the save gives it an id. */
  function NewRental(db: Db, pricing: Pricing.PricingPolicy, cmd: Command, today: int): RentalData
    requires cmd.carId in db.cars
  {
    var t := db.cars[cmd.carId].carType;
    RentalData(None, cmd.customerId, cmd.carId, t, today, cmd.days,
               Pricing.BasePrice(pricing, t, cmd.days), Rentals.OPEN)
  }

  /** The whole effect of one call on the collaborators, and its answer. */
  function Rent(db: Db, pricing: Pricing.PricingPolicy, cmd: Command, today: int): Step<Receipt> {
    if cmd.days <= 0 then Step(Failure(BadRequest(DaysMustBePositive)), db)
    else
      var db1 := db.Logged(LoadCarCall(cmd.carId));
      if cmd.carId !in db.cars then Step(Failure(NotFound(NotFoundMessage("Car", cmd.carId))), db1)
      else
        var db2 := db1.Logged(LoadCustomerCall(cmd.customerId));
        if cmd.customerId !in db.customers then
          Step(Failure(NotFound(NotFoundMessage("Customer", cmd.customerId))), db2)
        else
          var car := db.cars[cmd.carId];
          var customer := db.customers[cmd.customerId];
          if !car.available then Step(Failure(Conflict(CarNotAvailable)), db2)
          else
            var prepaid := Pricing.BasePrice(pricing, car.carType, cmd.days);
            var points := Loyalty.PointsFor(car.carType);
            var db3 := db2.Logged(BasePriceCall(car.carType, cmd.days)).Logged(PointsForCall(car.carType));
            var db4 := db3.SaveRental(ToEntity(NewRental(db, pricing, cmd, today)));
            var db5 := db4.SaveCar(cmd.carId, car.(available := false));
            var db6 := db5.SaveCustomer(cmd.customerId, WithPointsAdded(customer, points));
            Step(Success(Receipt(db.nextRentalId, prepaid, points)), db6)
  }

  /** handle(cmd), on the in-memory collaborators; LocalDate.now() is `today`. */
  method Handle(ports: Backend, cmd: Command, today: int) returns (result: Result<Receipt, Failure>)
    modifies ports
    ensures result == Rent(old(ports.State()), ports.pricing, cmd, today).result
    ensures ports.State() == Rent(old(ports.State()), ports.pricing, cmd, today).db
  {
    ghost var db := ports.State();
    if cmd.days <= 0 {
      return Failure(BadRequest(DaysMustBePositive));
    }
    var car := ports.LoadCar(cmd.carId);
    if car == null {
      return Failure(NotFound(NotFoundMessage("Car", cmd.carId)));
    }
    var customer := ports.LoadCustomer(cmd.customerId);
    if customer == null {
      return Failure(NotFound(NotFoundMessage("Customer", cmd.customerId)));
    }
    if !car.available {
      return Failure(Conflict(CarNotAvailable));
    }
    var prepaid := ports.BasePrice(car.carType, cmd.days);
    var points := ports.PointsFor(car.carType);

    var rental := new Rental.Open(customer.id, car.id, car.carType, cmd.days, prepaid, today);
    var persisted := ports.SaveRental(rental);
    assert persisted.id == Some(db.nextRentalId);
    ghost var db4 := ports.State();
    assert db4 == db.Logged(LoadCarCall(cmd.carId)).Logged(LoadCustomerCall(cmd.customerId))
                    .Logged(BasePriceCall(car.carType, cmd.days)).Logged(PointsForCall(car.carType))
                    .SaveRental(ToEntity(NewRental(db, ports.pricing, cmd, today)));

    car.SetAvailable(false);
    ports.SaveCar(car);

    customer.AddPoints(points);
    ports.SaveCustomer(customer);

    return Success(Receipt(persisted.id.value, prepaid, points));
  }

  /** days <= 0 is refused before any collaborator is called. */
  lemma RejectsNonPositiveDays(db: Db, pricing: Pricing.PricingPolicy, cmd: Command, today: int)
    requires cmd.days <= 0
    ensures Rent(db, pricing, cmd, today) == Step(Failure(BadRequest("days must be > 0")), db)
  {
  }

  /** A missing car is reported as "Car not found: <id>"; the customer is never loaded and
      nothing is priced or saved. */
  lemma MissingCar(db: Db, pricing: Pricing.PricingPolicy, cmd: Command, today: int)
    requires cmd.days > 0 && cmd.carId !in db.cars
    ensures Rent(db, pricing, cmd, today)
         == Step(Failure(NotFound(NotFoundMessage("Car", cmd.carId))), db.Logged(LoadCarCall(cmd.carId)))
  {
  }

  /** A missing customer is reported as "Customer not found: <id>" after both loads; nothing is
      priced or saved. */
  lemma MissingCustomer(db: Db, pricing: Pricing.PricingPolicy, cmd: Command, today: int)
    requires cmd.days > 0 && cmd.carId in db.cars && cmd.customerId !in db.customers
    ensures Rent(db, pricing, cmd, today)
         == Step(Failure(NotFound(NotFoundMessage("Customer", cmd.customerId))),
                 db.Logged(LoadCarCall(cmd.carId)).Logged(LoadCustomerCall(cmd.customerId)))
  {
  }

  /** An unavailable car is a conflict, reported after both loads; neither policy is asked and
      nothing is saved. */
  lemma UnavailableCar(db: Db, pricing: Pricing.PricingPolicy, cmd: Command, today: int)
    requires cmd.days > 0 && cmd.carId in db.cars && cmd.customerId in db.customers
    requires !db.cars[cmd.carId].available
    ensures Rent(db, pricing, cmd, today)
         == Step(Failure(Conflict("car is not available")),
                 db.Logged(LoadCarCall(cmd.carId)).Logged(LoadCustomerCall(cmd.customerId)))
  {
  }

  /** Every failure leaves all three tables and the id generator as they were, and the only
      calls it makes are loads. */
  lemma FailureChangesNothing(db: Db, pricing: Pricing.PricingPolicy, cmd: Command, today: int)
    requires Rent(db, pricing, cmd, today).result.Failure?
    ensures var db' := Rent(db, pricing, cmd, today).db;
      && db'.SameTables(db)
      && |db'.log| >= |db.log| && db'.log[..|db.log|] == db.log
      && forall i :: |db.log| <= i < |db'.log| ==> db'.log[i].LoadCarCall? || db'.log[i].LoadCustomerCall?
  {
    if cmd.days <= 0 {
      RejectsNonPositiveDays(db, pricing, cmd, today);
    } else if cmd.carId !in db.cars {
      MissingCar(db, pricing, cmd, today);
    } else if cmd.customerId !in db.customers {
      MissingCustomer(db, pricing, cmd, today);
    } else {
      UnavailableCar(db, pricing, cmd, today);
    }
  }

  /** A call succeeds exactly when days > 0, car and customer exist and the car is available.
      Then: the stored rental is OPEN, has the command's customer, car and days, the car's
      category and the base price for it, and the generated id; the car is stored unavailable;
      the customer's points grow by exactly the category's points; the calls are, in order,
      load car, load customer, price, points, save rental, save car, save customer. */
  lemma SuccessEffects(db: Db, pricing: Pricing.PricingPolicy, cmd: Command, today: int)
    ensures var s := Rent(db, pricing, cmd, today);
      s.result.Success? <==>
        cmd.days > 0 && cmd.carId in db.cars && cmd.customerId in db.customers
        && db.cars[cmd.carId].available
    ensures var s := Rent(db, pricing, cmd, today);
      s.result.Success? ==>
        var k := db.nextRentalId;
        var car := db.cars[cmd.carId];
        var customer := db.customers[cmd.customerId];
        var prepaid := Pricing.BasePrice(pricing, car.carType, cmd.days);
        var points := Loyalty.PointsFor(car.carType);
        var row := RentalEntity(Some(k), cmd.customerId, cmd.carId, car.carType, today, cmd.days,
                                prepaid, RentalPersistence.OPEN);
        && s.result.value == Receipt(k, prepaid, points)
        && s.db.rentals == db.rentals[k := row]
        && s.db.nextRentalId == k + 1
        && s.db.cars == db.cars[cmd.carId := car.(available := false)]
        && s.db.customers == db.customers[cmd.customerId := CustomerRow(customer.name, customer.points + points)]
        && s.db.log == db.log + [LoadCarCall(cmd.carId), LoadCustomerCall(cmd.customerId),
                                 BasePriceCall(car.carType, cmd.days), PointsForCall(car.carType),
                                 SaveRentalCall(row.(id := None)),
                                 SaveCarCall(cmd.carId, car.(available := false)),
                                 SaveCustomerCall(cmd.customerId, CustomerRow(customer.name, customer.points + points))]
  {
  }

  /** No customer's balance ever goes down, and no customer or car disappears. */
  lemma PointsNeverDecrease(db: Db, pricing: Pricing.PricingPolicy, cmd: Command, today: int)
    ensures var db' := Rent(db, pricing, cmd, today).db;
      && db.cars.Keys <= db'.cars.Keys && db.customers.Keys <= db'.customers.Keys
      && forall c :: c in db.customers ==> db'.customers[c].points >= db.customers[c].points
  {
  }

  /** The rental table stays keyed by each row's own id. */
  lemma RentKeepsValid(db: Db, pricing: Pricing.PricingPolicy, cmd: Command, today: int)
    requires db.Valid()
    ensures Rent(db, pricing, cmd, today).db.Valid()
  {
  }
}
