/** ReturnCarUseCase: close a rental. Load it; if already RETURNED answer surcharge 0 and stop;
    otherwise compute the late surcharge, save the rental as RETURNED, then load the car and
    save it as available. */
module ReturnCar {
  import opened Wrappers
  import opened Inventory
  import opened Rentals
  import opened RentalPersistence
  import opened Errors
  import opened Ports
  import Pricing

  datatype Command = Command(rentalId: int, actualReturnDate: int)

  datatype Receipt = Receipt(rentalId: int, surcharge: real)

  /** max(0, DAYS.between(planned, actual)): the whole days past the planned return date. */
  function ExtraDays(planned: int, actual: int): (n: int)
    ensures n >= 0
    ensures actual <= planned ==> n == 0
    ensures actual >= planned ==> planned + n == actual
  {
    if actual - planned > 0 then actual - planned else 0
  }

  /** extra * latePerDay(rental.type). */
  function Surcharge(pricing: Pricing.PricingPolicy, r: RentalData, actual: int): real {
    ExtraDays(PlannedReturnDate(r), actual) as real * Pricing.LatePerDay(pricing, r.carType)
  }

  /** No surcharge for a return on or before start + days booked; N days after it costs
      N late fees of the rental's category. */
  lemma SurchargeByLateness(pricing: Pricing.PricingPolicy, r: RentalData, actual: int)
    ensures actual <= r.startDate + r.daysBooked ==> Surcharge(pricing, r, actual) == 0.0
    ensures actual >= r.startDate + r.daysBooked ==>
      Surcharge(pricing, r, actual)
        == (actual - r.startDate - r.daysBooked) as real * Pricing.LatePerDay(pricing, r.carType)
  {
  }

  /** A nine-day SMALL rental from day d, returned on day d + 11, at a late fee of 65 a day (the
      SMALL late fee at the default rates) is surcharged 130. */
  lemma TwoDaysLateExample(d: int)
    ensures Surcharge(Pricing.DefaultRates,
                      RentalData(Some(2), 1, 4, SMALL, d, 9, 410.0, Rentals.OPEN), d + 11) == 130.0
  {
    Pricing.DefaultRatesExamples();
  }

  /** The whole effect of one call on the collaborators, and its answer. */
  function Return(db: Db, pricing: Pricing.PricingPolicy, cmd: Command): Step<Receipt> {
    var db1 := db.Logged(LoadRentalCall(cmd.rentalId));
    if cmd.rentalId !in db.rentals then Step(Failure(NoSuchElement), db1)
    else
      var rental := ToDomain(db.rentals[cmd.rentalId]);
      if rental.status == Rentals.RETURNED then Step(Success(Receipt(cmd.rentalId, 0.0)), db1)
      else
        var surcharge := Surcharge(pricing, rental, cmd.actualReturnDate);
        var db2 := db1.Logged(LatePerDayCall(rental.carType));
        var db3 := db2.SaveRental(ToEntity(MarkedReturned(rental)));
        var db4 := db3.Logged(LoadCarCall(rental.carId));
        if rental.carId !in db.cars then Step(Failure(NoSuchElement), db4)
        else
          var db5 := db4.SaveCar(rental.carId, db.cars[rental.carId].(available := true));
          Step(Success(Receipt(cmd.rentalId, surcharge)), db5)
  }

  /** handle(cmd), on the in-memory collaborators. */
  method Handle(ports: Backend, cmd: Command) returns (result: Result<Receipt, Failure>)
    requires ports.State().Valid()
    modifies ports
    ensures result == Return(old(ports.State()), ports.pricing, cmd).result
    ensures ports.State() == Return(old(ports.State()), ports.pricing, cmd).db
  {
    var rental := ports.LoadRental(cmd.rentalId);
    if rental == null {
      return Failure(NoSuchElement);
    }
    ghost var loaded := rental.Data();
    assert rental.id == Some(cmd.rentalId);
    if rental.status == Rentals.RETURNED {
      return Success(Receipt(rental.id.value, 0.0));
    }

    var planned := rental.startDate + rental.daysBooked;
    var extra := if cmd.actualReturnDate - planned > 0 then cmd.actualReturnDate - planned else 0;
    var fee := ports.LatePerDay(rental.carType);
    var surcharge := extra as real * fee;
    assert surcharge == Surcharge(ports.pricing, loaded, cmd.actualReturnDate);

    rental.MarkReturned();
    var _ := ports.SaveRental(rental);

    var car := ports.LoadCar(rental.carId);
    if car == null {
      return Failure(NoSuchElement);
    }
    car.SetAvailable(true);
    ports.SaveCar(car);

    return Success(Receipt(rental.id.value, surcharge));
  }

  /** A missing rental fails after the one lookup: no save, no car lookup, no late fee asked. */
  lemma MissingRental(db: Db, pricing: Pricing.PricingPolicy, cmd: Command)
    requires cmd.rentalId !in db.rentals
    ensures Return(db, pricing, cmd) == Step(Failure(NoSuchElement), db.Logged(LoadRentalCall(cmd.rentalId)))
  {
  }

  /** An already RETURNED rental answers surcharge 0 after the one lookup, whatever the date. */
  lemma AlreadyReturned(db: Db, pricing: Pricing.PricingPolicy, cmd: Command)
    requires cmd.rentalId in db.rentals && db.rentals[cmd.rentalId].status == RentalPersistence.RETURNED
    ensures Return(db, pricing, cmd)
         == Step(Success(Receipt(cmd.rentalId, 0.0)), db.Logged(LoadRentalCall(cmd.rentalId)))
  {
  }

  /** Closing an OPEN rental whose car exists: the rental row becomes RETURNED with every other
      field kept, the car row becomes available, the answer is the surcharge, and the calls are,
      in order, load rental, late fee, save rental, load car, save car. */
  lemma ClosesOpenRental(db: Db, pricing: Pricing.PricingPolicy, cmd: Command)
    requires db.Valid()
    requires cmd.rentalId in db.rentals && db.rentals[cmd.rentalId].status == RentalPersistence.OPEN
    requires db.rentals[cmd.rentalId].carId in db.cars
    ensures var row := db.rentals[cmd.rentalId];
      var car := db.cars[row.carId];
      var s := Return(db, pricing, cmd);
      && s.result == Success(Receipt(cmd.rentalId, Surcharge(pricing, ToDomain(row), cmd.actualReturnDate)))
      && s.db.rentals == db.rentals[cmd.rentalId := row.(status := RentalPersistence.RETURNED)]
      && s.db.cars == db.cars[row.carId := car.(available := true)]
      && s.db.customers == db.customers && s.db.nextRentalId == db.nextRentalId
      && s.db.log == db.log + [LoadRentalCall(cmd.rentalId), LatePerDayCall(row.carType),
                               SaveRentalCall(row.(status := RentalPersistence.RETURNED)),
                               LoadCarCall(row.carId), SaveCarCall(row.carId, car.(available := true))]
  {
  }

  /** When the rental's car is missing the call fails, but only after the RETURNED rental was
      saved; the car table is untouched and no car is saved. */
  lemma MissingCarAfterSave(db: Db, pricing: Pricing.PricingPolicy, cmd: Command)
    requires db.Valid()
    requires cmd.rentalId in db.rentals && db.rentals[cmd.rentalId].status == RentalPersistence.OPEN
    requires db.rentals[cmd.rentalId].carId !in db.cars
    ensures var row := db.rentals[cmd.rentalId];
      var s := Return(db, pricing, cmd);
      && s.result == Failure(NoSuchElement)
      && s.db.rentals == db.rentals[cmd.rentalId := row.(status := RentalPersistence.RETURNED)]
      && s.db.cars == db.cars
      && (forall i :: |db.log| <= i < |s.db.log| ==> !s.db.log[i].SaveCarCall?)
      && s.db.log[|s.db.log| - 1] == LoadCarCall(row.carId)
  {
  }

  /** Closing twice: once a close has succeeded, closing the same rental again, on any date,
      answers surcharge 0 and changes no table. */
  lemma {:induction false} CloseTwiceIsIdempotent(db: Db, pricing: Pricing.PricingPolicy, cmd: Command, laterDate: int)
    requires db.Valid()
    requires Return(db, pricing, cmd).result.Success?
    ensures var db' := Return(db, pricing, cmd).db;
      var again := Return(db', pricing, Command(cmd.rentalId, laterDate));
      && again.result == Success(Receipt(cmd.rentalId, 0.0))
      && again.db.SameTables(db')
  {
    var db' := Return(db, pricing, cmd).db;
    assert cmd.rentalId in db'.rentals;
    assert db'.rentals[cmd.rentalId].status == RentalPersistence.RETURNED;
  }

  /** In this model, which has no transaction rollback, a close that failed on a missing car has
      already stored the rental as RETURNED, so a retry reports success with surcharge 0 although
      the car was never made available again. With the rollback the service runs under, the
      failed close would be undone and a retry would fail the same way. */
  lemma {:induction false} RetryAfterMissingCarReportsSuccess(db: Db, pricing: Pricing.PricingPolicy, cmd: Command, laterDate: int)
    requires db.Valid()
    requires cmd.rentalId in db.rentals && db.rentals[cmd.rentalId].status == RentalPersistence.OPEN
    requires db.rentals[cmd.rentalId].carId !in db.cars
    ensures var db' := Return(db, pricing, cmd).db;
      var again := Return(db', pricing, Command(cmd.rentalId, laterDate));
      && Return(db, pricing, cmd).result == Failure(NoSuchElement)
      && again.result == Success(Receipt(cmd.rentalId, 0.0))
      && again.db.cars == db.cars
  {
    MissingCarAfterSave(db, pricing, cmd);
  }

  /** The rental table stays keyed by each row's own id. */
  lemma ReturnKeepsValid(db: Db, pricing: Pricing.PricingPolicy, cmd: Command)
    requires db.Valid()
    ensures Return(db, pricing, cmd).db.Valid()
  {
  }
}
