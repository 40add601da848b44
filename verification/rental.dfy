/** The Rental aggregate: one booking's lifecycle, OPEN then RETURNED, never back. */
module Rentals {
  import opened Wrappers
  import opened Inventory

  datatype Status = OPEN | RETURNED

  /** All eight fields of a rental at one moment; the id is absent until the first save. */
  datatype RentalData = RentalData(
    id: Option<int>,
    customerId: int,
    carId: int,
    carType: CarType,
    startDate: int,   // epoch day
    daysBooked: int,
    prepaidAmount: real,
    status: Status)

  /** The day by which the car is due back: derived, never stored. */
  function PlannedReturnDate(r: RentalData): int {
    r.startDate + r.daysBooked
  }

  /** The effect of assignId(x). */
  function WithId(r: RentalData, x: int): (r': RentalData)
    ensures r'.id == Some(x)
    ensures r' == r.(id := r'.id)
  {
    r.(id := Some(x))
  }

  /** The effect of markReturned(). */
  function MarkedReturned(r: RentalData): (r': RentalData)
    ensures r'.status == RETURNED
    ensures r' == r.(status := r'.status)
  {
    r.(status := RETURNED)
  }

  /** The two mutators a rental offers after construction. */
  datatype Mutation = AssignId(newId: int) | MarkReturned

  function Apply(r: RentalData, m: Mutation): RentalData {
    match m
    case AssignId(x) => WithId(r, x)
    case MarkReturned => MarkedReturned(r)
  }

  /** A rental after a sequence of mutations, applied first to last. */
  function ApplyAll(r: RentalData, ms: seq<Mutation>): RentalData
    decreases |ms|
  {
    if ms == [] then r else ApplyAll(Apply(r, ms[0]), ms[1..])
  }

  /** Whatever the mutators do, the six final fields stay as they were built; the rental ends
      RETURNED exactly when it started RETURNED or markReturned was among the calls, so no
      sequence of calls takes a RETURNED rental back to OPEN. */
  lemma {:induction false} MutationsKeepFinalFields(r: RentalData, ms: seq<Mutation>)
    ensures var r' := ApplyAll(r, ms);
      && r'.customerId == r.customerId && r'.carId == r.carId && r'.carType == r.carType
      && r'.startDate == r.startDate && r'.daysBooked == r.daysBooked
      && r'.prepaidAmount == r.prepaidAmount
      && (r'.status == RETURNED <==> r.status == RETURNED || MarkReturned in ms)
    decreases |ms|
  {
    if ms != [] {
      MutationsKeepFinalFields(Apply(r, ms[0]), ms[1..]);
      assert ms == [ms[0]] + ms[1..];
    }
  }

  /** markReturned twice is markReturned once. */
  lemma MarkReturnedIdempotent(r: RentalData)
    ensures MarkedReturned(MarkedReturned(r)) == MarkedReturned(r)
  {
  }

  class Rental {
    var id: Option<int>
    const customerId: int
    const carId: int
    const carType: CarType
    const startDate: int
    const daysBooked: int
    const prepaidAmount: real
    var status: Status

    function Data(): RentalData
      reads this
    {
      RentalData(id, customerId, carId, carType, startDate, daysBooked, prepaidAmount, status)
    }

    /** Rehydration from storage: every field, id and status included, as supplied. */
    constructor Reconstitute(id: Option<int>, customerId: int, carId: int, carType: CarType,
                             startDate: int, daysBooked: int, prepaidAmount: real, status: Status)
      ensures Data() == RentalData(id, customerId, carId, carType, startDate, daysBooked, prepaidAmount, status)
    {
      this.id := id;
      this.customerId := customerId;
      this.carId := carId;
      this.carType := carType;
      this.startDate := startDate;
      this.daysBooked := daysBooked;
      this.prepaidAmount := prepaidAmount;
      this.status := status;
    }

    /** A new booking starting today: no id yet, status OPEN. */
    constructor Open(customerId: int, carId: int, carType: CarType, days: int, prepaid: real, today: int)
      ensures Data() == RentalData(None, customerId, carId, carType, today, days, prepaid, OPEN)
    {
      this.id := None;
      this.customerId := customerId;
      this.carId := carId;
      this.carType := carType;
      this.startDate := today;
      this.daysBooked := days;
      this.prepaidAmount := prepaid;
      this.status := OPEN;
    }

    method AssignId(x: int)
      modifies this`id
      ensures Data() == WithId(old(Data()), x)
    {
      id := Some(x);
    }

    method MarkReturned()
      modifies this`status
      ensures Data() == MarkedReturned(old(Data()))
    {
      status := RETURNED;
    }
  }

  /** The four loaders of the LoadRentals port. */
  datatype LoadQuery =
    | FindAll
    | FindByStatus(status: Status)
    | FindByCustomer(customerId: int)
    | FindByCustomerAndStatus(customerId: int, status: Status)

  /** The rentals a loader is meant to return. */
  predicate Selects(q: LoadQuery, r: RentalData) {
    match q
    case FindAll => true
    case FindByStatus(s) => r.status == s
    case FindByCustomer(c) => r.customerId == c
    case FindByCustomerAndStatus(c, s) => r.customerId == c && r.status == s
  }
}
