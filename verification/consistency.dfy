/** The state the two workflows keep between them: rental rows are keyed by their own id and
    below the id generator, the car of every open rental exists and is marked unavailable, and
    no car has two open rentals. */
module Consistency {
  import opened Wrappers
  import opened Ports
  import RentalPersistence
  import RentCar
  import ReturnCar
  import Pricing

  predicate OpenRow(db: Db, k: int) {
    k in db.rentals && db.rentals[k].status == RentalPersistence.OPEN
  }

  ghost predicate Consistent(db: Db) {
    && db.Valid()
    && (forall k :: k in db.rentals ==> k < db.nextRentalId)
    && (forall k :: OpenRow(db, k) ==>
          db.rentals[k].carId in db.cars && !db.cars[db.rentals[k].carId].available)
    && (forall j, k :: OpenRow(db, j) && OpenRow(db, k) && db.rentals[j].carId == db.rentals[k].carId ==> j == k)
  }

  /** Opening a rental keeps the state consistent, whatever the outcome: the car it books was
      available, so it had no open rental, and it is marked unavailable in the same call. */
  lemma RentKeepsConsistent(db: Db, pricing: Pricing.PricingPolicy, cmd: RentCar.Command, today: int)
    requires Consistent(db)
    ensures Consistent(RentCar.Rent(db, pricing, cmd, today).db)
  {
    var s := RentCar.Rent(db, pricing, cmd, today);
    if s.result.Failure? {
      RentCar.FailureChangesNothing(db, pricing, cmd, today);
    } else {
      RentCar.SuccessEffects(db, pricing, cmd, today);
      RentCar.RentKeepsValid(db, pricing, cmd, today);
      var db' := s.db;
      var n := db.nextRentalId;
      assert db'.rentals.Keys == db.rentals.Keys + {n};
      assert db'.rentals[n].carId == cmd.carId && db'.rentals[n].status == RentalPersistence.OPEN;
      forall k | OpenRow(db', k) && k != n
        ensures db'.rentals[k].carId != cmd.carId
      {
        assert OpenRow(db, k);
      }
    }
  }

  /** Closing a rental keeps the state consistent: the closed rental was the only open one for
      its car, so the car may be released. */
  lemma ReturnKeepsConsistent(db: Db, pricing: Pricing.PricingPolicy, cmd: ReturnCar.Command)
    requires Consistent(db)
    ensures Consistent(ReturnCar.Return(db, pricing, cmd).db)
  {
    var s := ReturnCar.Return(db, pricing, cmd);
    ReturnCar.ReturnKeepsValid(db, pricing, cmd);
    if cmd.rentalId !in db.rentals {
      ReturnCar.MissingRental(db, pricing, cmd);
    } else if db.rentals[cmd.rentalId].status == RentalPersistence.RETURNED {
      ReturnCar.AlreadyReturned(db, pricing, cmd);
    } else {
      ReturnCar.ClosesOpenRental(db, pricing, cmd);
      var db' := s.db;
      var c := db.rentals[cmd.rentalId].carId;
      forall k | OpenRow(db', k)
        ensures k != cmd.rentalId && OpenRow(db, k) && db.rentals[k].carId != c
      {
        assert k != cmd.rentalId;
        assert OpenRow(db, k);
      }
    }
  }

  /** On a consistent state, returning a rental that exists never fails: the car the rental
      names is always there, so the missing-car path cannot be reached. */
  lemma ReturnOfKnownRentalSucceeds(db: Db, pricing: Pricing.PricingPolicy, cmd: ReturnCar.Command)
    requires Consistent(db)
    requires cmd.rentalId in db.rentals
    ensures ReturnCar.Return(db, pricing, cmd).result.Success?
  {
    if db.rentals[cmd.rentalId].status == RentalPersistence.OPEN {
      assert OpenRow(db, cmd.rentalId);
    }
  }

  /** On a consistent state, renting a car that has an open rental is refused as a conflict. */
  lemma RentedCarIsRefused(db: Db, pricing: Pricing.PricingPolicy, cmd: RentCar.Command, today: int, k: int)
    requires Consistent(db)
    requires OpenRow(db, k) && db.rentals[k].carId == cmd.carId
    requires cmd.days > 0 && cmd.customerId in db.customers
    ensures RentCar.Rent(db, pricing, cmd, today).result == Failure(Errors.Conflict(RentCar.CarNotAvailable))
  {
    RentCar.UnavailableCar(db, pricing, cmd, today);
  }
}
