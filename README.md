# Car catalog and test-drive API: a Dafny model

This project models the request handlers of a car-comparison backend (`backend/server.py`):
listing cars through a filter built from five optional query parameters, fetching one car
by id, creating cars, listing the distinct makes and body types in sorted order, booking a
test drive for an existing car, listing bookings, and listing four fixed dealership
locations.

The document store (MongoDB in the source) is modelled as a class, `Server.Store`, holding
the two collections as sequences in store order: `cars` and `testDrives`. The handlers are
methods of that class. The store's own operations are pure functions over those sequences:
`find` with a filter is `Query.Find`, the 1000-document cursor cap is `Query.FindCapped`,
`find_one` on an id is `Query.FindById`, and `distinct` is a set of field values. Building
the filter is written twice. `Query.BuildQuery` builds it step by step, as the source does.
`Query.BuildFilter` is the function that states what the result is. The meaning of MongoDB's
operators is fixed by `Query.Matches`: equality on every exact-match clause, and inclusive
`$gte`/`$lte` bounds on price, all joined by AND.

Modules and files:
- `wrappers.dfy`: `Option` and `Result`.
- `records.dfy`: the records (`Car`, `CarCreate`, `TestDrive`, `TestDriveCreate`,
  `Location`), how input becomes a stored record, the stored and listed forms of a
  booking's creation time, and the email check.
- `query.dfy`: the filter, matching, `find`, `find_one` and the cap.
- `ordering.dfy`: Python's string order and sorted distinct values.
- `server.dfy`: the handlers and the fixed locations.

Two behaviours of the code that the model keeps as written:
- The code tests truthiness (`if make:`), so `make=""`, `type=""` or `year=0` adds no
  clause, while a price bound of `0` is honoured (`is not None`).
- The code never checks a new id against existing ones, so the creation lemmas assume the
  id is absent.

Inputs the model takes as parameters:
- The generated ids (`uuid4`) are method parameters.
- The current time (`datetime.now`) is a method parameter.

## Model

| member | source | states |
|---|---|---|
| Records.ToCar | backend/server.py:124-131 | a created car has the generated id and carries exactly the nine input fields: dropping its id gives back the input |
| Records.ToTestDrive | backend/server.py:55-76 | a new booking has the generated id, status "pending" and the current time, and carries the seven input fields unchanged |
| Records.StoredForm | backend/server.py:153-154 | the stored document holds the ISO text of the booking's timestamp and differs from the booking in nothing else; the handler only ever passes a booking holding a timestamp (`ToTestDrive` ensures it), so the text case cannot arise |
| Records.Rehydrate | backend/server.py:163-165 | a listed booking always holds a timestamp; a text creation time is parsed back into the instant it names, a timestamp is kept, and no other field changes |
| Records.RehydrateStoredForm | backend/server.py:153-165 | a booking returned at creation is what listing its stored document gives back |
| Records.NoAtIsRefused | backend/server.py:61 | an email address with no '@' fails the address check |
| Records.PlausibleEmail | backend/server.py:61 | the modelled address check: an accepted address contains '@' and does not start with it |
| Query.Matches | backend/server.py:101-114 | the meaning of the filter operators: equality on each exact-match clause and inclusive bounds on price, all conjoined; the empty filter matches every car |
| Ordering.StrLess | backend/server.py:136 | Python's `<` on strings, code point by code point with a proper prefix first; no string sorts before itself |
| Query.BuildFilter | backend/server.py:99-112 | make, type and year clauses exist exactly when the parameter is truthy; a price clause exists exactly when some bound is given and holds exactly the bounds given; a car matches exactly when it meets each truthy exact-match parameter and each given inclusive bound |
| Query.BuildQuery | backend/server.py:99-112 | building the query clause by clause yields the filter BuildFilter describes |
| Query.PrefixIsSubsequence | backend/server.py:114 | cutting a subsequence short leaves a subsequence of the same collection |
| Query.Find | backend/server.py:114 | every car found matches the filter, every matching car is found as often as it is stored, and the order of the store is kept |
| Query.FindCapped | backend/server.py:114 | the first matching cars, at most 1000 of them, in store order; while the cap is not reached, it is the whole match set |
| Query.FindEmptyFilter | backend/server.py:99 | the filter with no clauses selects the whole collection |
| Query.FalsyParametersSelectAll | backend/server.py:101-106 | absent or falsy make, type and year with no price bound build the empty filter, which selects every stored car |
| Query.FindById | backend/server.py:119-121 | a car is found exactly when some stored car has the id; the one found has that id and is the earliest such car |
| Query.FindAppendedById | backend/server.py:119-131 | a car appended under an id no stored car has is the one a lookup of that id finds |
| Ordering.StrLessIrreflexive | backend/server.py:136 | no string sorts before itself |
| Ordering.StrLessTransitive | backend/server.py:136 | the string order is transitive |
| Ordering.StrLessTotal | backend/server.py:136 | of two different strings, one sorts before the other |
| Ordering.Insert | backend/server.py:136 | inserting into a strictly ascending list keeps it strictly ascending and adds exactly the one value |
| Ordering.SortedDistinct | backend/server.py:135-136 | the result is strictly ascending (sorted, no repeats) and holds exactly the values of the input |
| Ordering.AscendingUnique | backend/server.py:135-136 | two strictly ascending lists with the same values are equal, so the result does not depend on the order `distinct` returns values in |
| Server.FieldValues | backend/server.py:135 | one field value per stored car, in store order |
| Server.FieldValuesElems | backend/server.py:135 | the set of field values is the set of values that field takes across the stored cars |
| Server.Locations | backend/server.py:169-201 | exactly four locations, with ids loc1, loc2, loc3 and loc4 in that order, all distinct |
| Server.Store.GetCars | backend/server.py:91-115 | at most 1000 cars, a subsequence of the store, each matching every clause of the built filter; below the cap, every matching car is returned as often as it is stored |
| Server.Store.GetCar | backend/server.py:117-122 | succeeds exactly when some stored car has the id, and then returns the earliest stored car with that id (ids are not unique); otherwise it is the 404 "Car not found" |
| Server.Store.CreateCar | backend/server.py:124-131 | returns the input under the generated id and appends exactly that car; the bookings are untouched |
| Server.Store.DistinctSorted | backend/server.py:135-136 | a strictly ascending list whose values are exactly the values the field takes across the stored cars |
| Server.Store.GetMakes | backend/server.py:133-136 | a strictly ascending list of exactly the makes in the store |
| Server.Store.GetTypes | backend/server.py:138-141 | a strictly ascending list of exactly the body types in the store |
| Server.Store.BookTestDrive | backend/server.py:143-157 | a bad email gives 422 and an unknown car id gives 404, and neither stores anything; otherwise it returns the pending booking built from the input, and appends exactly its stored form; the cars are untouched in every case |
| Server.Store.GetTestDrives | backend/server.py:159-167 | the first 1000 stored bookings in store order, each with its text creation time parsed back |
| Server.CreateThenGet | backend/server.py:117-131 | a client that calls the create handler under an id no stored car had, then the get handler on that id, gets back exactly the created car, whose fields are the creation input |
| Server.TeslaExample | backend/server.py:101-114 | with one Tesla stored, a make=Tesla query returns exactly that car and a make=Toyota query returns nothing |
| Server.ZeroBoundIsHonoured | backend/server.py:105-112 | max_price=0 excludes a car with a positive price, while make="" and year=0 exclude nothing |

## Left out

- Database connection, FastAPI routing, the CORS middleware, logging and the shutdown hook (backend/server.py:17-26, 204-224): these are I/O and framework glue. The handlers run one at a time on the store class, with no concurrency.
- The root endpoint `GET /api/` (backend/server.py:87-89): it returns only a constant message and has no logic.
- backend/seed_data.py is not part of this model: it is a fixed data list plus a one-off delete-and-insert script.
- Id generation (`uuid4`) and the clock (`datetime.now`): both are method parameters. Nothing is claimed about ids being unique, because the source never checks them.
- Timestamps: an `Instant` is identified by its ISO-8601 text. `isoformat` is reading that text back, and `fromisoformat` is the constructor. Parse failures, and non-canonical text that the parser accepts, are not modelled.
- Records.ToTestDrive: stores `user_email` as given. The address normalisation the `EmailStr` type applies is not modelled: stripping surrounding whitespace, reducing `Name <addr>` to `addr`, and lower-casing the domain.
- Records.PlausibleEmail approximates the `EmailStr` address check, which lives in a foreign library. It requires a non-empty local part, one '@', and a domain with an inner dot. It stands for the request-body validation that runs before the handler starts, so it is checked before any store access.
- Other request validation is not modelled: missing fields, wrong types, and ignoring of extra fields in request bodies. The 422 answer to a non-numeric `min_price`/`max_price` or a non-integer `year` on `GET /api/cars`, which comes before the handler runs, is not modelled either. The typed inputs cannot be malformed.
- Server.InvalidEmail: only the 422 status is modelled. The detail text stands for the framework's list of validation error objects.
- Response-model validation is not modelled. This includes re-checking stored documents against `Car` or `TestDrive` on the way out.
- Store operations are assumed to succeed. In the source any store call can raise, and the request then ends in a 500 with nothing inserted. One such failure is BSON's 64-bit limit on integers: a `year` outside [-2^63, 2^63) makes `insert_one` (backend/server.py:130) and `find` (backend/server.py:114) raise. The model's `year` is an unbounded `int`, so `Server.Store.CreateCar` appends and `Server.Store.GetCars` returns a list for such a year.
- Prices are reals, not floats. NaN, infinities and rounding are not modelled.
- `specs` is a dictionary with arbitrary values in the source. Here it is a map from text to text.
- The MongoDB `_id` field and its removal by the `{"_id": 0}` projection: the model's records have no such field.
