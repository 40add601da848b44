/** ListRentalsUseCase: pick one loader from the optional customer and status filters and turn
    each loaded rental into a view with its planned return date. */
module ListRentals {
  import opened Wrappers
  import opened Inventory
  import opened Rentals
  import RentalPersistence

  datatype Filter = Filter(customerId: Option<int>, status: Option<string>)

  datatype View = View(
    id: Option<int>,
    customerId: int,
    carId: int,
    carType: string,
    startDate: int,
    daysBooked: int,
    plannedReturnDate: int,
    prepaidAmount: real,
    status: string)

  /** String.toUpperCase on one character, for ASCII letters. */
  function UpperChar(c: char): char {
    if 'a' <= c <= 'z' then (c as int - 32) as char else c
  }

  function LowerChar(c: char): char {
    if 'A' <= c <= 'Z' then (c as int + 32) as char else c
  }

  function Upper(s: string): (u: string)
    ensures |u| == |s|
    ensures forall i :: 0 <= i < |s| ==> u[i] == UpperChar(s[i])
    decreases |s|
  {
    if s == [] then [] else [UpperChar(s[0])] + Upper(s[1..])
  }

  /** The enum constant a status string names once upper-cased; anything else is no status. */
  function ParseStatus(s: string): Option<Status> {
    var u := Upper(s);
    if u == "OPEN" then Some(Rentals.OPEN)
    else if u == "RETURNED" then Some(Rentals.RETURNED)
    else None
  }

  /** statusFrom(filter): an absent status and an unknown one both mean no status filter. */
  function StatusFrom(f: Filter): Option<Status> {
    match f.status
    case None => None
    case Some(s) => ParseStatus(s)
  }

  /** The single loader handle() calls. */
  function QueryFor(f: Filter): LoadQuery {
    match StatusFrom(f)
    case None =>
      if f.customerId.Some? then FindByCustomer(f.customerId.value) else FindAll
    case Some(s) =>
      if f.customerId.Some? then FindByCustomerAndStatus(f.customerId.value, s) else FindByStatus(s)
  }

  function TypeName(t: CarType): string {
    match t
    case PREMIUM => "PREMIUM"
    case SUV => "SUV"
    case SMALL => "SMALL"
  }

  function StatusName(s: Status): string {
    match s
    case OPEN => "OPEN"
    case RETURNED => "RETURNED"
  }

  /** toView: the rental's fields copied, the enums by name, and the planned return date. */
  function ToView(r: RentalData): (v: View)
    ensures v.plannedReturnDate == PlannedReturnDate(r) && v.plannedReturnDate - v.startDate == v.daysBooked
    ensures v.id == r.id && v.customerId == r.customerId && v.carId == r.carId
    ensures v.startDate == r.startDate && v.daysBooked == r.daysBooked && v.prepaidAmount == r.prepaidAmount
    ensures v.carType == TypeName(r.carType)
    ensures v.status == StatusName(r.status) && ParseStatus(v.status) == Some(r.status)
  {
    StatusNameParsesBack(r.status);
    View(r.id, r.customerId, r.carId, TypeName(r.carType), r.startDate, r.daysBooked,
         r.startDate + r.daysBooked, r.prepaidAmount, StatusName(r.status))
  }

  /** handle(filter): `load` answers each loader of the LoadRentals port. */
  function Handle(f: Filter, load: LoadQuery -> seq<RentalData>): (views: seq<View>)
    ensures |views| == |load(QueryFor(f))|
    ensures forall i :: 0 <= i < |views| ==> views[i] == ToView(load(QueryFor(f))[i])
  {
    var rentals := load(QueryFor(f));
    seq(|rentals|, i requires 0 <= i < |rentals| => ToView(rentals[i]))
  }

  /** Distinct categories have distinct names, so a view's type string identifies the category. */
  lemma TypeNamesDistinct(a: CarType, b: CarType)
    ensures TypeName(a) == TypeName(b) <==> a == b
  {
  }

  /** A status name read back gives the same status, in upper or lower case. */
  lemma StatusNameParsesBack(s: Status)
    ensures ParseStatus(StatusName(s)) == Some(s)
  {
    assert Upper("OPEN") == "OPEN";
    assert Upper("RETURNED") == "RETURNED";
  }

  /** `s` spells `word` (an upper-case word) with each letter in either case. */
  predicate SpellsIgnoringCase(s: string, word: string) {
    |s| == |word| && forall i :: 0 <= i < |s| ==> s[i] == word[i] || s[i] == LowerChar(word[i])
  }

  lemma UpperCharMatches(c: char, w: char)
    requires 'A' <= w <= 'Z'
    ensures UpperChar(c) == w <==> c == w || c == LowerChar(w)
  {
  }

  lemma UpperSpells(s: string, word: string)
    requires forall i :: 0 <= i < |word| ==> 'A' <= word[i] <= 'Z'
    ensures Upper(s) == word <==> SpellsIgnoringCase(s, word)
  {
    if |s| == |word| {
      if Upper(s) == word {
        forall i | 0 <= i < |s| ensures s[i] == word[i] || s[i] == LowerChar(word[i]) {
          UpperCharMatches(s[i], word[i]);
        }
      }
      if SpellsIgnoringCase(s, word) {
        forall i | 0 <= i < |s| ensures Upper(s)[i] == word[i] {
          UpperCharMatches(s[i], word[i]);
        }
      }
    }
  }

  /** The status filter is read case-insensitively: a string selects OPEN exactly when it spells
      "open" in any mix of cases, RETURNED exactly when it spells "returned" so, and nothing
      otherwise. */
  lemma ParseStatusIgnoresCase(s: string)
    ensures ParseStatus(s) == Some(Rentals.OPEN) <==> SpellsIgnoringCase(s, "OPEN")
    ensures ParseStatus(s) == Some(Rentals.RETURNED) <==> SpellsIgnoringCase(s, "RETURNED")
    ensures ParseStatus(s) == None <==> !SpellsIgnoringCase(s, "OPEN") && !SpellsIgnoringCase(s, "RETURNED")
  {
    UpperSpells(s, "OPEN");
    UpperSpells(s, "RETURNED");
  }

  lemma StatusFilterExamples()
    ensures StatusFrom(Filter(None, Some("open"))) == Some(Rentals.OPEN)
    ensures StatusFrom(Filter(None, Some("OPEN"))) == Some(Rentals.OPEN)
    ensures StatusFrom(Filter(Some(1), Some("returned"))) == Some(Rentals.RETURNED)
    ensures StatusFrom(Filter(None, Some("RETURNED"))) == Some(Rentals.RETURNED)
    ensures StatusFrom(Filter(None, Some("something-else"))) == None
    ensures StatusFrom(Filter(None, None)) == None
  {
    ParseStatusIgnoresCase("open");
    ParseStatusIgnoresCase("OPEN");
    ParseStatusIgnoresCase("returned");
    ParseStatusIgnoresCase("RETURNED");
    ParseStatusIgnoresCase("something-else");
    assert !SpellsIgnoringCase("something-else", "OPEN");
    assert !SpellsIgnoringCase("something-else", "RETURNED");
  }

  /** Exactly one loader, chosen by which filters are present: neither, findAll; customer only,
      findByCustomer; status only, findByStatus; both, findByCustomerAndStatus. An unknown
      status string counts as absent. */
  lemma OneLoaderPerFilter(f: Filter)
    ensures StatusFrom(f).None? && f.customerId.None? ==> QueryFor(f) == FindAll
    ensures StatusFrom(f).None? && f.customerId.Some? ==> QueryFor(f) == FindByCustomer(f.customerId.value)
    ensures StatusFrom(f).Some? && f.customerId.None? ==> QueryFor(f) == FindByStatus(StatusFrom(f).value)
    ensures StatusFrom(f).Some? && f.customerId.Some? ==>
      QueryFor(f) == FindByCustomerAndStatus(f.customerId.value, StatusFrom(f).value)
    ensures f.status.Some? && StatusFrom(f).None? ==> QueryFor(f) == QueryFor(f.(status := None))
  {
  }

  /** Listing through the rental adapter, when the repository honours its queries: one view per
      row, in order, and every view satisfies the filters that were recognised. */
  lemma {:induction false} ListingHonoursFilters(f: Filter, repo: RentalPersistence.RepoQuery -> seq<RentalPersistence.RentalEntity>)
    requires forall q: RentalPersistence.RepoQuery, e :: e in repo(q) ==> RentalPersistence.RowSelected(q, e)
    ensures var views := Handle(f, q => RentalPersistence.Find(q, repo));
      && |views| == |repo(RentalPersistence.RepoQueryFor(QueryFor(f)))|
      && forall i :: 0 <= i < |views| ==>
           && (f.customerId.Some? ==> views[i].customerId == f.customerId.value)
           && (StatusFrom(f).Some? ==> views[i].status == StatusName(StatusFrom(f).value))
  {
    var q := QueryFor(f);
    RentalPersistence.FindHonoursFilter(q, repo);
    var rs := RentalPersistence.Find(q, repo);
    forall i | 0 <= i < |rs|
      ensures f.customerId.Some? ==> rs[i].customerId == f.customerId.value
      ensures StatusFrom(f).Some? ==> rs[i].status == StatusFrom(f).value
    {
      assert Selects(q, rs[i]);
    }
  }
}
