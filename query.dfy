/**
 * The car-list filter: how the five optional query parameters of the list endpoint
 * become a conjunctive filter, what it means for a car to match it, and what the
 * store's `find` and `find_one` return for it.
 */
module Query {
  import opened Wrappers
  import opened Records

  /** The most documents a list handler takes from a cursor. */
  const MaxResults: nat := 1000

  /** A price clause: an inclusive lower bound (`$gte`) and/or an inclusive upper bound (`$lte`). */
  datatype PriceRange = PriceRange(gte: Option<real>, lte: Option<real>)

  /** A conjunctive filter on cars: an absent field is no clause at all. */
  datatype Filter = Filter(make: Option<string>, carType: Option<string>, year: Option<int>, price: Option<PriceRange>)

  /** The filter with no clauses. */
  const EmptyFilter: Filter := Filter(None, None, None, None)

  /** Python truthiness of an optional text parameter: given and not empty. */
  predicate TruthyText(s: Option<string>) {
    s.Some? && s.value != ""
  }

  /** Python truthiness of an optional integer parameter: given and not zero. */
  predicate TruthyInt(n: Option<int>) {
    n.Some? && n.value != 0
  }

  /** A price lies within a range when it meets each bound the range has. */
  predicate Within(p: real, range: PriceRange) {
    (range.gte.Some? ==> p >= range.gte.value) && (range.lte.Some? ==> p <= range.lte.value)
  }

  /** A car matches a filter when it satisfies every clause the filter has. */
  predicate Matches(c: Car, f: Filter)
    ensures f == EmptyFilter ==> Matches(c, f)
  {
    && (f.make.Some? ==> c.make == f.make.value)
    && (f.carType.Some? ==> c.carType == f.carType.value)
    && (f.year.Some? ==> c.year == f.year.value)
    && (f.price.Some? ==> Within(c.price, f.price.value))
  }

  /**
   * The filter the list handler builds from its parameters. A make, type or year clause
   * exists exactly when that parameter is truthy; a price clause exists exactly when
   * some bound is given (zero included), and it holds exactly the bounds given.
   */
  function BuildFilter(make: Option<string>, carType: Option<string>, minPrice: Option<real>,
                       maxPrice: Option<real>, year: Option<int>): (f: Filter)
    ensures f.make.Some? <==> TruthyText(make)
    ensures f.carType.Some? <==> TruthyText(carType)
    ensures f.year.Some? <==> TruthyInt(year)
    ensures f.price.Some? <==> minPrice.Some? || maxPrice.Some?
    ensures f.make.Some? ==> f.make == make
    ensures f.carType.Some? ==> f.carType == carType
    ensures f.year.Some? ==> f.year == year
    ensures f.price.Some? ==> f.price.value.gte == minPrice && f.price.value.lte == maxPrice
    ensures forall c: Car :: Matches(c, f) <==>
      && (TruthyText(make) ==> c.make == make.value)
      && (TruthyText(carType) ==> c.carType == carType.value)
      && (TruthyInt(year) ==> c.year == year.value)
      && (minPrice.Some? ==> c.price >= minPrice.value)
      && (maxPrice.Some? ==> c.price <= maxPrice.value)
  {
    Filter(
      if TruthyText(make) then make else None,
      if TruthyText(carType) then carType else None,
      if TruthyInt(year) then year else None,
      if minPrice.Some? || maxPrice.Some? then Some(PriceRange(minPrice, maxPrice)) else None)
  }

  /**
   * The list handler's query construction, clause by clause: start empty, add each
   * truthy exact-match clause, then open a price clause and fill in the bounds given.
   */
  method BuildQuery(make: Option<string>, carType: Option<string>, minPrice: Option<real>,
                    maxPrice: Option<real>, year: Option<int>) returns (query: Filter)
    ensures query == BuildFilter(make, carType, minPrice, maxPrice, year)
  {
    query := EmptyFilter;
    if TruthyText(make) {
      query := query.(make := make);
    }
    if TruthyText(carType) {
      query := query.(carType := carType);
    }
    if TruthyInt(year) {
      query := query.(year := year);
    }
    if minPrice.Some? || maxPrice.Some? {
      var range := PriceRange(None, None);
      if minPrice.Some? {
        range := range.(gte := minPrice);
      }
      if maxPrice.Some? {
        range := range.(lte := maxPrice);
      }
      query := query.(price := Some(range));
    }
  }

  /** `a` is `b` with some elements left out, the rest in the same order. */
  predicate IsSubsequence<T(==)>(a: seq<T>, b: seq<T>)
    decreases |b|
  {
    if a == [] then true
    else if b == [] then false
    else if a[0] == b[0] then IsSubsequence(a[1..], b[1..])
    else IsSubsequence(a, b[1..])
  }

  /** A prefix of a subsequence is a subsequence. */
  lemma {:induction false} PrefixIsSubsequence<T>(a: seq<T>, b: seq<T>, k: nat)
    requires k <= |a| && IsSubsequence(a, b)
    ensures IsSubsequence(a[..k], b)
    decreases |b|
  {
    if k > 0 {
      assert a[..k][0] == a[0];
      if a[0] == b[0] {
        PrefixIsSubsequence(a[1..], b[1..], k - 1);
        assert a[..k][1..] == a[1..][..k - 1];
      } else {
        PrefixIsSubsequence(a, b[1..], k);
      }
    }
  }

  /**
   * The cars of a collection that match a filter, in collection order: every one of them
   * matches, every matching car is kept as often as it occurs, and the order is preserved.
   */
  function Find(cars: seq<Car>, f: Filter): (r: seq<Car>)
    ensures forall i :: 0 <= i < |r| ==> Matches(r[i], f)
    ensures forall c :: Matches(c, f) ==> multiset(r)[c] == multiset(cars)[c]
    ensures IsSubsequence(r, cars)
  {
    if cars == [] then []
    else
      var rest := Find(cars[1..], f);
      assert cars == [cars[0]] + cars[1..];
      if Matches(cars[0], f) then [cars[0]] + rest else rest
  }

  /** The first matching cars, at most `MaxResults` of them: what a capped cursor yields. */
  function FindCapped(cars: seq<Car>, f: Filter): (r: seq<Car>)
    ensures |r| <= MaxResults
    ensures IsSubsequence(r, cars)
    ensures forall i :: 0 <= i < |r| ==> Matches(r[i], f)
    ensures |r| < MaxResults ==> r == Find(cars, f)
    ensures |r| <= |Find(cars, f)| && r == Find(cars, f)[..|r|]
    ensures forall c :: Matches(c, f) && |Find(cars, f)| <= MaxResults ==> multiset(r)[c] == multiset(cars)[c]
  {
    var all := Find(cars, f);
    var n := if |all| <= MaxResults then |all| else MaxResults;
    PrefixIsSubsequence(all, cars, n);
    assert all[..|all|] == all;
    all[..n]
  }

  /** With no clauses every car matches, so the whole collection is found. */
  lemma {:induction false} FindEmptyFilter(cars: seq<Car>)
    ensures Find(cars, EmptyFilter) == cars
  {
    if cars != [] {
      FindEmptyFilter(cars[1..]);
      assert cars == [cars[0]] + cars[1..];
    }
  }

  /**
   * Parameters that are absent, or present but falsy (an empty make or type, year 0),
   * with no price bound, select the whole collection.
   */
  lemma FalsyParametersSelectAll(cars: seq<Car>, make: Option<string>, carType: Option<string>, year: Option<int>)
    requires !TruthyText(make) && !TruthyText(carType) && !TruthyInt(year)
    ensures BuildFilter(make, carType, None, None, year) == EmptyFilter
    ensures Find(cars, BuildFilter(make, carType, None, None, year)) == cars
  {
    FindEmptyFilter(cars);
  }

  /**
   * The first car of a collection with the given id, as `find_one` on the id returns it:
   * found exactly when some car has that id, and then it is the earliest such car.
   */
  function FindById(cars: seq<Car>, id: string): (r: Option<Car>)
    ensures r.Some? <==> exists i :: 0 <= i < |cars| && cars[i].id == id
    ensures r.Some? ==> r.value.id == id
    ensures r.Some? ==> exists i :: 0 <= i < |cars| && cars[i] == r.value && forall j :: 0 <= j < i ==> cars[j].id != id
  {
    if cars == [] then None
    else if cars[0].id == id then Some(cars[0])
    else
      var r := FindById(cars[1..], id);
      assert forall i :: 1 <= i < |cars| ==> cars[i] == cars[1..][i - 1];
      r
  }

  /** A car appended under an id no stored car has is what a lookup of that id finds. */
  lemma {:induction false} FindAppendedById(cars: seq<Car>, c: Car)
    requires forall i :: 0 <= i < |cars| ==> cars[i].id != c.id
    ensures FindById(cars + [c], c.id) == Some(c)
  {
    if cars != [] {
      FindAppendedById(cars[1..], c);
      assert (cars + [c])[1..] == cars[1..] + [c];
    }
  }
}
