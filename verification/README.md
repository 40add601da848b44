# Rental car core, modelled in Dafny

A model of the core of a small car-rental service. Customers rent cars of three categories (PREMIUM, SUV, SMALL) for a number of days and pay a prepaid base price. They earn loyalty points per rental, and pay a surcharge per day when they return a car late. Rentals can be listed with an optional customer filter and an optional status filter.

The model follows the service's own structure:

- `Pricing` (pricing.dfy): the default pricing policy. The SUV price is a method with the same day-by-day loop, proved equal to a recursive sum. The per-day tiers, the closed form and monotonicity are lemmas about the price. The late fee is a function whose contract compares it with the rate of every booked day.
- `Loyalty` (loyalty.dfy): the default loyalty policy.
- `Inventory`, `Customers`, `Rentals` (inventory.dfy, customers.dfy, rental.dfy): the mutable domain objects `Car`, `Customer` and `Rental`. Each is a class whose setters and domain methods update fields in place. Each also has a value form (`CarRow`, `CustomerRow`, `RentalData`) that its methods are specified against.
- `RentalPersistence` (persistence.dfy): the rental adapter's mappings between the domain rental and the stored row, and its four list queries.
- `Ports` (ports.dfy): the collaborators the two workflows are wired to, in one class `Backend`.
  - Three tables: cars, customers and rental rows.
  - The rental id generator, and the configured pricing rates.
  - A log of every port and policy call, in order.
  - Its abstract value is the datatype `Db`.
- `RentCar` and `ReturnCar` (rent_car.dfy, return_car.dfy): the two workflows.
  - Each is a module-level method over a `Backend` it is given. It is proved to produce exactly the result and new state given by a specification function (`Rent`, `Return`).
  - The error paths, the call order, what is saved, and what a failure leaves behind are lemmas about those functions.
- `ListRentals` (list_rentals.dfy): the listing query. It parses the status filter, chooses one loader and builds the views.
- `Consistency` (consistency.dfy): a state invariant the two workflows keep together. Every open rental's car exists and is marked unavailable, no car has two open rentals, and rental ids are below the id generator. On such a state, returning a known rental never fails.
- `Errors` and `Wrappers` (errors.dfy, wrappers.dfy): failures as values, including the "<What> not found: <id>" text, and the Option and Result types.

Representation choices:

- Money is an exact `real`.
- Dates are whole day numbers, and the current date is a parameter.
- Exceptions are `Failure` values:
  - `BadRequest` and `Conflict` carry the reason text.
  - `NotFound` carries the message.
  - `NoSuchElement` is the empty-Optional case.
- The workflow methods return a `Result`.

## Model

| member | source | states |
|---|---|---|
| Errors.Digits | src/main/java/com/challenge/RentalCar/shared/error/NotFoundException.java:8-10 | the decimal rendering of a natural number is non-empty, made only of digits, and starts with '0' only for 0 |
| Errors.DigitsRoundTrip | src/main/java/com/challenge/RentalCar/shared/error/NotFoundException.java:8-10 | reading the decimal digits of a natural number back gives that number |
| Errors.IntToString | src/main/java/com/challenge/RentalCar/shared/error/NotFoundException.java:8-10 | the rendering of an id starts with '-' exactly when the id is negative, and reading it back, sign included, gives the id |
| Errors.NotFoundMessage | src/main/java/com/challenge/RentalCar/shared/error/NotFoundException.java:8-10 | the message is the entity name, then " not found: ", then the id's decimal rendering |
| Errors.NotFoundMessageIdentifiesId | src/main/java/com/challenge/RentalCar/shared/error/NotFoundException.java:8-10 | two not-found messages for the same entity kind are equal exactly when their ids are equal |
| Errors.SmallNumbersRender | src/main/java/com/challenge/RentalCar/shared/error/NotFoundException.java:8-10 | the ids 10 and 999 render as "10" and "999" |
| Errors.NotFoundMessageExamples | src/main/java/com/challenge/RentalCar/shared/error/NotFoundException.java:8-10 | "Car not found: 10" and "Customer not found: 999" |
| Inventory.Car.constructor | src/main/java/com/challenge/RentalCar/inventory/domain/Car.java:15-21 | id, brand, model, type and availability are stored as given |
| Inventory.Car.SetAvailable | src/main/java/com/challenge/RentalCar/inventory/domain/Car.java:6-13 | availability becomes the argument; id, brand, model and type are unchanged |
| Inventory.Car.SetId | src/main/java/com/challenge/RentalCar/inventory/domain/Car.java:6-9 | only the id changes |
| Customers.WithPointsAdded | src/main/java/com/challenge/RentalCar/customers/domain/Customer.java:14-16 | adding p points keeps the name and raises the points by exactly p |
| Customers.AddZeroPoints | src/main/java/com/challenge/RentalCar/customers/domain/Customer.java:14-16 | adding 0 points changes nothing |
| Customers.AddPointsTwice | src/main/java/com/challenge/RentalCar/customers/domain/Customer.java:14-16 | adding a then b is the same as adding a + b |
| Customers.Customer.constructor | src/main/java/com/challenge/RentalCar/customers/domain/Customer.java:8-12 | id, name and points are stored as given |
| Customers.Customer.AddPoints | src/main/java/com/challenge/RentalCar/customers/domain/Customer.java:14-16 | points rise by exactly p; id and name are unchanged |
| Loyalty.PointsFor | src/main/java/com/challenge/RentalCar/rentals/domain/rules/DefaultLoyaltyPolicy.java:6-12 | every category earns between 1 and 5 points |
| Loyalty.PointsRanking | src/main/java/com/challenge/RentalCar/rentals/domain/rules/DefaultLoyaltyPolicy.java:6-12 | PREMIUM earns 5, SUV 3, SMALL 1, so PREMIUM > SUV > SMALL > 0 |
| Pricing.SuvTotal | src/main/java/com/challenge/RentalCar/rentals/domain/rules/DefaultPricingPolicy.java:13-21 | the SUV price as a recursive sum of the day rates over days 1 to days: full rate up to day 7, 80% up to day 30, 50% after; nothing for days <= 0 |
| Pricing.DayRate | src/main/java/com/challenge/RentalCar/rentals/domain/rules/DefaultPricingPolicy.java:12-25 | the rate of the tier that day d falls in: premium always; the SUV tiers; small up to day 7 and 60% of it after |
| Pricing.BasePrice | src/main/java/com/challenge/RentalCar/rentals/domain/rules/DefaultPricingPolicy.java:10-27 | the specification of basePrice: premium times days, the SUV day sum, and small times days up to 7 days, then 7 full days plus 60% for each further day |
| Pricing.ComputeBasePrice | src/main/java/com/challenge/RentalCar/rentals/domain/rules/DefaultPricingPolicy.java:10-27 | the price, with the SUV loop, equals the per-day-tier specification for every category and every day count |
| Pricing.LatePerDay | src/main/java/com/challenge/RentalCar/rentals/domain/rules/DefaultPricingPolicy.java:28-34 | with non-negative rates a late day costs at least as much as any booked day of the same category |
| Pricing.BasePriceOfZeroDays | src/main/java/com/challenge/RentalCar/rentals/domain/rules/DefaultPricingPolicy.java:12-25 | a booking of zero days costs 0 in every category |
| Pricing.BasePriceStep | src/main/java/com/challenge/RentalCar/rentals/domain/rules/DefaultPricingPolicy.java:12-25 | booking one more day adds exactly the rate of the tier that day falls in |
| Pricing.SuvFirstWeek | src/main/java/com/challenge/RentalCar/rentals/domain/rules/DefaultPricingPolicy.java:13-21 | up to 7 SUV days cost suv per day |
| Pricing.SuvUpToDay30 | src/main/java/com/challenge/RentalCar/rentals/domain/rules/DefaultPricingPolicy.java:13-21 | SUV days 8 to 30 cost 80% of suv each |
| Pricing.SuvAfterDay30 | src/main/java/com/challenge/RentalCar/rentals/domain/rules/DefaultPricingPolicy.java:13-21 | SUV days after 30 cost 50% of suv each |
| Pricing.SuvTotalClosedForm | src/main/java/com/challenge/RentalCar/rentals/domain/rules/DefaultPricingPolicy.java:13-21 | the SUV day-by-day sum in closed form, one formula per tier |
| Pricing.BasePriceMonotone | src/main/java/com/challenge/RentalCar/rentals/domain/rules/DefaultPricingPolicy.java:10-26 | with non-negative rates a longer booking never costs less, in every category |
| Pricing.DefaultRatesExamples | src/main/java/com/challenge/RentalCar/rentals/RentalsConfig.java:15-19 | at rates 300/150/50: SUV 10 days 1410, SMALL 9 days 410, PREMIUM 9 days 2700; late fees 360, 180 and 65 per day |
| Rentals.PlannedReturnDate | src/main/java/com/challenge/RentalCar/rentals/application/ReturnCarUseCase.java:31 | the planned return day is the start day plus the days booked |
| Rentals.WithId | src/main/java/com/challenge/RentalCar/rentals/domain/Rental.java:44-46 | assigning an id sets it and changes no other field |
| Rentals.MarkedReturned | src/main/java/com/challenge/RentalCar/rentals/domain/Rental.java:48-50 | closing sets the status to RETURNED and changes no other field |
| Rentals.MutationsKeepFinalFields | src/main/java/com/challenge/RentalCar/rentals/domain/Rental.java:10-19 | after any sequence of id assignments and closings, the six final fields are unchanged, and the status is RETURNED exactly when it was RETURNED or a closing happened, so nothing reopens a rental |
| Rentals.MarkReturnedIdempotent | src/main/java/com/challenge/RentalCar/rentals/domain/Rental.java:48-50 | closing twice is the same as closing once |
| Rentals.Rental.Reconstitute | src/main/java/com/challenge/RentalCar/rentals/domain/Rental.java:32-38 | all eight fields are restored exactly, including id and status |
| Rentals.Rental.Open | src/main/java/com/challenge/RentalCar/rentals/domain/Rental.java:40-42 | a new rental has no id, is OPEN, starts today and keeps the given customer, car, type, days and prepaid amount |
| Rentals.Rental.AssignId | src/main/java/com/challenge/RentalCar/rentals/domain/Rental.java:44-46 | the id becomes the argument; nothing else changes |
| Rentals.Rental.MarkReturned | src/main/java/com/challenge/RentalCar/rentals/domain/Rental.java:48-50 | the status becomes RETURNED; nothing else changes |
| RentalPersistence.ToEntityStatus | src/main/java/com/challenge/RentalCar/rentals/adapter/persistence/RentalPersistenceAdapter.java:71-72 | OPEN is stored as OPEN, anything else as RETURNED |
| RentalPersistence.ToDomainStatus | src/main/java/com/challenge/RentalCar/rentals/adapter/persistence/RentalPersistenceAdapter.java:58 | a stored OPEN reads as OPEN, anything else as RETURNED |
| RentalPersistence.ToEntity | src/main/java/com/challenge/RentalCar/rentals/adapter/persistence/RentalPersistenceAdapter.java:62-74 | the stored row copies all eight fields of the rental, the status through its translation |
| RentalPersistence.ToDomain | src/main/java/com/challenge/RentalCar/rentals/adapter/persistence/RentalPersistenceAdapter.java:54-60 | the rental reconstituted from all eight columns of the row, the status through its translation |
| RentalPersistence.StatusMappingIsBijective | src/main/java/com/challenge/RentalCar/rentals/adapter/persistence/RentalPersistenceAdapter.java:54-74 | the two status translations are inverse to each other and map OPEN to OPEN |
| RentalPersistence.MappingRoundTrip | src/main/java/com/challenge/RentalCar/rentals/adapter/persistence/RentalPersistenceAdapter.java:54-74 | domain to row and back gives the same rental; row to domain and back gives the same row |
| RentalPersistence.MapToDomain | src/main/java/com/challenge/RentalCar/rentals/adapter/persistence/RentalPersistenceAdapter.java:30-52 | the list queries keep the length and order of the rows and map each row |
| RentalPersistence.RepoQueryFor | src/main/java/com/challenge/RentalCar/rentals/adapter/persistence/RentalPersistenceAdapter.java:30-52 | each of the four loaders calls its own derived repository query, with the status translated |
| RentalPersistence.Find | src/main/java/com/challenge/RentalCar/rentals/adapter/persistence/RentalPersistenceAdapter.java:30-52 | a loader's answer is its repository query's rows, each mapped to a rental, in order |
| RentalPersistence.FindHonoursFilter | src/main/java/com/challenge/RentalCar/rentals/adapter/persistence/RentalPersistenceAdapter.java:30-52 | when the repository answers its derived query, every rental returned satisfies the customer and status filter asked for, with the status translated |
| Ports.Db.SaveRental | src/main/java/com/challenge/RentalCar/rentals/adapter/persistence/RentalPersistenceAdapter.java:23-28 | a row without an id is stored under the next generated id, which then advances; a row with an id overwrites that key; rows stay keyed by their own id |
| Ports.Db.SaveCar | src/main/java/com/challenge/RentalCar/inventory/adapter/persistence/CarPersistenceAdapter.java:22-26 | the car row is written under its id; nothing else changes |
| Ports.Db.SaveCustomer | src/main/java/com/challenge/RentalCar/customers/adapter/persistence/CustomerPersistenceAdapter.java:24-28 | the customer row is written under its id; nothing else changes |
| Ports.Db.RentalById | src/main/java/com/challenge/RentalCar/rentals/adapter/persistence/RentalPersistenceAdapter.java:18-21 | empty exactly when no row has that id; otherwise the mapped rental, whose row is the stored one |
| Ports.SaveThenLoad | src/main/java/com/challenge/RentalCar/rentals/adapter/persistence/RentalPersistenceAdapter.java:18-28 | saving a rental and loading it by its id gives it back with the id filled in; other ids load as before |
| Ports.Backend.LoadCar | src/main/java/com/challenge/RentalCar/inventory/adapter/persistence/CarPersistenceAdapter.java:17-19 | null exactly when the car is missing; otherwise a fresh Car holding the stored row |
| Ports.Backend.SaveCar | src/main/java/com/challenge/RentalCar/inventory/adapter/persistence/CarPersistenceAdapter.java:22-26 | the store afterwards holds the car's current fields under its id |
| Ports.Backend.LoadCustomer | src/main/java/com/challenge/RentalCar/customers/adapter/persistence/CustomerPersistenceAdapter.java:19-21 | null exactly when the customer is missing; otherwise a fresh Customer holding the stored row |
| Ports.Backend.SaveCustomer | src/main/java/com/challenge/RentalCar/customers/adapter/persistence/CustomerPersistenceAdapter.java:24-28 | the store afterwards holds the customer's current fields under its id |
| Ports.Backend.LoadRental | src/main/java/com/challenge/RentalCar/rentals/adapter/persistence/RentalPersistenceAdapter.java:18-21 | null exactly when the rental is missing; otherwise a fresh reconstituted Rental equal to the mapped row |
| Ports.Backend.SaveRental | src/main/java/com/challenge/RentalCar/rentals/adapter/persistence/RentalPersistenceAdapter.java:23-28 | the same object is returned; an id it had is kept, and a missing id becomes the generated one |
| Ports.Backend.BasePrice | src/main/java/com/challenge/RentalCar/rentals/domain/rules/DefaultPricingPolicy.java:10-27 | the policy's base price for the configured rates |
| Ports.Backend.LatePerDay | src/main/java/com/challenge/RentalCar/rentals/domain/rules/DefaultPricingPolicy.java:28-34 | the policy's late fee for the configured rates |
| Ports.Backend.PointsFor | src/main/java/com/challenge/RentalCar/rentals/domain/rules/DefaultLoyaltyPolicy.java:6-12 | the loyalty policy's points |
| RentCar.NewRental | src/main/java/com/challenge/RentalCar/rentals/application/RentCarUseCase.java:50-54 | the rental stored on success: no id, the command's customer, car and days, the car's type, today as start, the base price as prepaid amount, status OPEN |
| RentCar.Rent | src/main/java/com/challenge/RentalCar/rentals/application/RentCarUseCase.java:33-65 | the specification of handle: the answer and the state of every table and of the call log after each of the four failure paths and after success |
| RentCar.Handle | src/main/java/com/challenge/RentalCar/rentals/application/RentCarUseCase.java:33-65 | the result and the new state of every table and of the call log are those of the specification `Rent` |
| RentCar.RejectsNonPositiveDays | src/main/java/com/challenge/RentalCar/rentals/application/RentCarUseCase.java:35-37 | days <= 0 fails with BAD_REQUEST "days must be > 0" before any call |
| RentCar.MissingCar | src/main/java/com/challenge/RentalCar/rentals/application/RentCarUseCase.java:40-41 | a missing car fails with "Car not found: <carId>" after only the car lookup |
| RentCar.MissingCustomer | src/main/java/com/challenge/RentalCar/rentals/application/RentCarUseCase.java:42-43 | a missing customer fails with "Customer not found: <customerId>" after only the two lookups |
| RentCar.UnavailableCar | src/main/java/com/challenge/RentalCar/rentals/application/RentCarUseCase.java:46-48 | an unavailable car fails with CONFLICT "car is not available"; nothing is priced or saved |
| RentCar.FailureChangesNothing | src/main/java/com/challenge/RentalCar/rentals/application/RentCarUseCase.java:35-55 | every failure leaves the three tables and the id generator as they were and only logs lookups |
| RentCar.SuccessEffects | src/main/java/com/challenge/RentalCar/rentals/application/RentCarUseCase.java:50-64 | success happens exactly when days > 0, car and customer exist and the car is available; then the call order is lookups, price, points, then saves of rental, car, customer; the new OPEN rental carries the car's type and the base price; the car becomes unavailable; the customer gains the category's points; the result is (generated id, price, points) |
| RentCar.PointsNeverDecrease | src/main/java/com/challenge/RentalCar/rentals/application/RentCarUseCase.java:50-61 | no customer's points go down |
| RentCar.RentKeepsValid | src/main/java/com/challenge/RentalCar/rentals/application/RentCarUseCase.java:54-55 | rental rows stay keyed by their own id |
| ReturnCar.ExtraDays | src/main/java/com/challenge/RentalCar/rentals/application/ReturnCarUseCase.java:31-32 | the late days are never negative, 0 for an on-time or early return, and the planned date plus the late days is the actual date otherwise |
| ReturnCar.Surcharge | src/main/java/com/challenge/RentalCar/rentals/application/ReturnCarUseCase.java:31-33 | the late days after the planned return day times the category's late fee |
| ReturnCar.SurchargeByLateness | src/main/java/com/challenge/RentalCar/rentals/application/ReturnCarUseCase.java:31-33 | no surcharge for an on-time or early return; otherwise late days times the category's late fee |
| ReturnCar.TwoDaysLateExample | src/main/java/com/challenge/RentalCar/rentals/application/ReturnCarUseCase.java:31-33 | a SMALL car two days late at the default rates costs 130 |
| ReturnCar.Return | src/main/java/com/challenge/RentalCar/rentals/application/ReturnCarUseCase.java:27-43 | the specification of handle: the answer and the state of every table and of the call log for a missing rental, a closed one, a missing car and a successful close |
| ReturnCar.Handle | src/main/java/com/challenge/RentalCar/rentals/application/ReturnCarUseCase.java:27-43 | the result and the new state of every table and of the call log are those of the specification `Return` |
| ReturnCar.MissingRental | src/main/java/com/challenge/RentalCar/rentals/application/ReturnCarUseCase.java:28 | an unknown rental fails after only the lookup |
| ReturnCar.AlreadyReturned | src/main/java/com/challenge/RentalCar/rentals/application/ReturnCarUseCase.java:29 | a closed rental answers (id, 0) after only the lookup |
| ReturnCar.ClosesOpenRental | src/main/java/com/challenge/RentalCar/rentals/application/ReturnCarUseCase.java:31-42 | an open rental whose car exists is saved as RETURNED and its car as available, in the order lookup, late fee, rental save, car lookup, car save; the answer carries the surcharge |
| ReturnCar.MissingCarAfterSave | src/main/java/com/challenge/RentalCar/rentals/application/ReturnCarUseCase.java:35-38 | when the car is missing the rental has already been saved as RETURNED, the call fails and no car is saved |
| ReturnCar.CloseTwiceIsIdempotent | src/main/java/com/challenge/RentalCar/rentals/application/ReturnCarUseCase.java:29-36 | a second return of the same rental, on any date, answers surcharge 0 and changes no table |
| ReturnCar.RetryAfterMissingCarReportsSuccess | src/main/java/com/challenge/RentalCar/rentals/application/ReturnCarUseCase.java:29-38 | in this model, which has no transaction rollback (see Transactions under Left out), a retry after a failure on a missing car answers success with surcharge 0; the service itself rolls the failed close back, so its retry fails the same way |
| ReturnCar.ReturnKeepsValid | src/main/java/com/challenge/RentalCar/rentals/application/ReturnCarUseCase.java:35-36 | rental rows stay keyed by their own id |
| ListRentals.ParseStatus | src/main/java/com/challenge/RentalCar/rentals/application/ListRentalsUseCase.java:30-34 | the status a filter string names once upper-cased; none for any other string |
| ListRentals.StatusFrom | src/main/java/com/challenge/RentalCar/rentals/application/ListRentalsUseCase.java:29-35 | an absent status filter and an unknown one both give no status |
| ListRentals.QueryFor | src/main/java/com/challenge/RentalCar/rentals/application/ListRentalsUseCase.java:18-25 | the one loader handle calls, chosen by whether a status was recognised and a customer given |
| ListRentals.TypeName | src/main/java/com/challenge/RentalCar/rentals/application/ListRentalsUseCase.java:41 | a category's enum name |
| ListRentals.StatusName | src/main/java/com/challenge/RentalCar/rentals/application/ListRentalsUseCase.java:44 | a status's enum name |
| ListRentals.Upper | src/main/java/com/challenge/RentalCar/rentals/application/ListRentalsUseCase.java:30 | upper-casing keeps the length and upper-cases each character |
| ListRentals.ToView | src/main/java/com/challenge/RentalCar/rentals/application/ListRentalsUseCase.java:37-46 | the view copies id, customer, car, start, days and prepaid amount, gives the type and the status by their enum names (the status name parses back to the status), and its planned return date is start plus days booked |
| ListRentals.Handle | src/main/java/com/challenge/RentalCar/rentals/application/ListRentalsUseCase.java:17-27 | one view per loaded rental, in the same order |
| ListRentals.TypeNamesDistinct | src/main/java/com/challenge/RentalCar/rentals/application/ListRentalsUseCase.java:41 | distinct categories get distinct names |
| ListRentals.StatusNameParsesBack | src/main/java/com/challenge/RentalCar/rentals/application/ListRentalsUseCase.java:29-35 | the name of a status parses back to that status |
| ListRentals.UpperCharMatches | src/main/java/com/challenge/RentalCar/rentals/application/ListRentalsUseCase.java:30 | a character upper-cases to a capital letter exactly when it is that letter in either case |
| ListRentals.UpperSpells | src/main/java/com/challenge/RentalCar/rentals/application/ListRentalsUseCase.java:30 | a string upper-cases to a capital word exactly when it spells that word in any mix of cases |
| ListRentals.ParseStatusIgnoresCase | src/main/java/com/challenge/RentalCar/rentals/application/ListRentalsUseCase.java:29-35 | a status string selects OPEN or RETURNED exactly when it spells that name in any mix of cases, and no status otherwise |
| ListRentals.StatusFilterExamples | src/main/java/com/challenge/RentalCar/rentals/application/ListRentalsUseCase.java:29-35 | "open" and "OPEN" give OPEN, "returned" and "RETURNED" give RETURNED, "something-else" and an absent status give none |
| ListRentals.OneLoaderPerFilter | src/main/java/com/challenge/RentalCar/rentals/application/ListRentalsUseCase.java:18-25 | exactly one loader, chosen by which filters are present; an unknown status counts as absent |
| ListRentals.ListingHonoursFilters | src/main/java/com/challenge/RentalCar/rentals/application/ListRentalsUseCase.java:17-27 | listing through the rental adapter gives one view per row, and each view has the filtered customer and carries exactly the filtered status's name |
| Consistency.RentKeepsConsistent | src/main/java/com/challenge/RentalCar/rentals/application/RentCarUseCase.java:33-65 | renting keeps every open rental's car present and unavailable and keeps each car to at most one open rental |
| Consistency.ReturnKeepsConsistent | src/main/java/com/challenge/RentalCar/rentals/application/ReturnCarUseCase.java:27-43 | returning keeps the same invariant |
| Consistency.ReturnOfKnownRentalSucceeds | src/main/java/com/challenge/RentalCar/rentals/application/ReturnCarUseCase.java:28-42 | on a consistent state, returning a rental that exists always succeeds |
| Consistency.RentedCarIsRefused | src/main/java/com/challenge/RentalCar/rentals/application/RentCarUseCase.java:46-48 | on a consistent state, renting a car that has an open rental is refused as a conflict |

## Left out

- Transactions: the use cases run inside a transaction, and a rollback is not modelled. A return whose car is missing keeps the RETURNED save in the model; a real transaction would undo it.
- Floating point: money is an exact real, so IEEE double rounding of the 0.8, 0.6, 1.2 and 1.3 factors is not modelled.
- Integer width: int and long overflow (points, ids, day counts, the late-day count) is not modelled.
- Pricing.ComputeBasePrice: the day counter is unbounded, so the loop ends for every day count. In Java the `int` counter wraps from Integer.MAX_VALUE to Integer.MIN_VALUE, so an SUV booking of Integer.MAX_VALUE days never finishes pricing; the model does not show this hang.
- Calendar: dates are whole day numbers, and the current date is a parameter rather than the system clock.
- Web layer: the controllers and the error-to-HTTP mapping are not part of this model. Failures are values that carry the status kind and text.
- Persistence technology: the JPA entities and Spring Data repositories are not part of this model. The car and customer tables are maps, and the rental table is a map with an id generator. The rental adapter's derived queries are a function parameter whose rows are assumed to match the query (FindHonoursFilter, ListingHonoursFilters).
- Car and customer adapters: they are modelled only as loads and saves of the stored fields. Their `setId` after a save is left out because loaded cars and customers always carry their id.
- Car.id and Customer.id are plain integers, never null, because every car and customer the workflows see was loaded by id.
- ReturnCar.Handle: requires that every rental row carries the id it is stored under. The database guarantees this for the generated key, and the model relies on it to answer with the loaded rental's id.
- ListRentals.Upper: upper-cases ASCII letters only; Java's locale and Unicode case mapping is not modelled.
- Customer's no-arguments constructor, the seed data and the Spring wiring are not modelled. The configured default rates appear only as `Pricing.DefaultRates`.
- Concurrency: two simultaneous bookings of one car are not modelled.
