/** RentalPersistenceAdapter: the mapping between the domain Rental and the stored row
    (JpaRentalEntity), and the mapping of the repository's query results. */
module RentalPersistence {
  import opened Wrappers
  import opened Inventory
  import Rentals

  /** The stored row's own status enum, distinct from the domain's. */
  datatype EntityStatus = OPEN | RETURNED

  /** The stored row: the domain's eight fields, with the row's status enum. */
  datatype RentalEntity = RentalEntity(
    id: Option<int>,
    customerId: int,
    carId: int,
    carType: CarType,
    startDate: int,
    daysBooked: int,
    prepaidAmount: real,
    status: EntityStatus)

  function ToEntityStatus(s: Rentals.Status): EntityStatus {
    if s == Rentals.OPEN then OPEN else RETURNED
  }

  function ToDomainStatus(s: EntityStatus): Rentals.Status {
    if s == OPEN then Rentals.OPEN else Rentals.RETURNED
  }

  /** OPEN maps to OPEN and RETURNED to RETURNED, in both directions. */
  lemma StatusMappingIsBijective(s: Rentals.Status, e: EntityStatus)
    ensures ToDomainStatus(ToEntityStatus(s)) == s
    ensures ToEntityStatus(ToDomainStatus(e)) == e
    ensures (ToEntityStatus(s) == OPEN) <==> (s == Rentals.OPEN)
  {
  }

  function ToEntity(r: Rentals.RentalData): RentalEntity {
    RentalEntity(r.id, r.customerId, r.carId, r.carType, r.startDate, r.daysBooked,
                 r.prepaidAmount, ToEntityStatus(r.status))
  }

  function ToDomain(e: RentalEntity): Rentals.RentalData {
    Rentals.RentalData(e.id, e.customerId, e.carId, e.carType, e.startDate, e.daysBooked,
                       e.prepaidAmount, ToDomainStatus(e.status))
  }

  /** Storing a rental and reading the row back gives the same eight fields, and vice versa. */
  lemma MappingRoundTrip(r: Rentals.RentalData, e: RentalEntity)
    ensures ToDomain(ToEntity(r)) == r
    ensures ToEntity(ToDomain(e)) == e
  {
  }

  /** `rows.stream().map(this::toDomain).toList()`. */
  function MapToDomain(rows: seq<RentalEntity>): (rs: seq<Rentals.RentalData>)
    ensures |rs| == |rows|
    ensures forall i :: 0 <= i < |rows| ==> rs[i] == ToDomain(rows[i])
    decreases |rows|
  {
    if rows == [] then [] else [ToDomain(rows[0])] + MapToDomain(rows[1..])
  }

  /** The Spring Data repository's derived queries, whose implementation is not part of this
      model: `repo` below stands for whatever rows the database answers each of them with. */
  datatype RepoQuery =
    | RepoFindAll
    | RepoFindByStatus(status: EntityStatus)
    | RepoFindByCustomerId(customerId: int)
    | RepoFindByCustomerIdAndStatus(customerId: int, status: EntityStatus)

  /** The rows a repository query is meant to return. */
  predicate RowSelected(q: RepoQuery, e: RentalEntity) {
    match q
    case RepoFindAll => true
    case RepoFindByStatus(s) => e.status == s
    case RepoFindByCustomerId(c) => e.customerId == c
    case RepoFindByCustomerIdAndStatus(c, s) => e.customerId == c && e.status == s
  }

  /** Which repository query each adapter loader delegates to, with the status translated. */
  function RepoQueryFor(q: Rentals.LoadQuery): RepoQuery {
    match q
    case FindAll => RepoFindAll
    case FindByStatus(s) => RepoFindByStatus(ToEntityStatus(s))
    case FindByCustomer(c) => RepoFindByCustomerId(c)
    case FindByCustomerAndStatus(c, s) => RepoFindByCustomerIdAndStatus(c, ToEntityStatus(s))
  }

  /** findAll / findByStatus / findByCustomer / findByCustomerAndStatus: delegate, then map
      each row in order. */
  function Find(q: Rentals.LoadQuery, repo: RepoQuery -> seq<RentalEntity>): seq<Rentals.RentalData> {
    MapToDomain(repo(RepoQueryFor(q)))
  }

  /** Each loader keeps length and order, and when the repository honours the query it was
      given, every rental returned is one the loader was asked for: the status filter survives
      the translation to the row's enum. */
  lemma {:induction false} FindHonoursFilter(q: Rentals.LoadQuery, repo: RepoQuery -> seq<RentalEntity>)
    requires forall e :: e in repo(RepoQueryFor(q)) ==> RowSelected(RepoQueryFor(q), e)
    ensures |Find(q, repo)| == |repo(RepoQueryFor(q))|
    ensures forall i :: 0 <= i < |Find(q, repo)| ==>
      Find(q, repo)[i] == ToDomain(repo(RepoQueryFor(q))[i]) && Rentals.Selects(q, Find(q, repo)[i])
  {
    var rows := repo(RepoQueryFor(q));
    forall i | 0 <= i < |rows|
      ensures Rentals.Selects(q, ToDomain(rows[i]))
    {
      assert rows[i] in rows;
      StatusMappingIsBijective(ToDomainStatus(rows[i].status), rows[i].status);
      match q
      case FindByStatus(s) => StatusMappingIsBijective(s, rows[i].status);
      case FindByCustomerAndStatus(c, s) => StatusMappingIsBijective(s, rows[i].status);
      case _ =>
    }
  }
}
