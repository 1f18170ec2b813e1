# URL shortener core in Dafny

A model of the two stateful pieces of a small Go URL-shortening service:

- the in-memory URL store `MockStorage` (internal/storage/mock_storage.go), a
  map from short code to a pointer to a `models.URL` record, with creation
  that refuses a short code already in use, lookup by short code, a
  click-counter increment by record ID and a statistics projection;
- the short-code generator `GenerateRandomString` (internal/utils/strings.go),
  which fills a buffer of the requested length with symbols of a 62-character
  alphanumeric charset, one `rand.Int` call per position.

Files:

- `wrappers.dfy` (module `Wrappers`): `Option`, `Result` and `Outcome` for Go's
  `(T, error)` and `error` returns.
- `models.dfy` (module `Models`): `int64`, the `URL` class (a heap object, so
  the pointer sharing between the store and its caller is kept), its value
  `URLRecord`, `URLStats`, and `WrapIncrement`, Go's `++` on `int64`.
- `store_spec.dfy` (module `StoreSpec`): the store as a value, a `Table` from
  short code to `URLRecord`, the effect of each operation on it and the
  lemmas about those effects.
- `mock_storage.dfy` (module `Storage`): the `MockStorage` class. Its one
  field `urls: map<string, URL>` is updated in place; `Table()` reads the
  objects it points to. `CreateURL` ties its new state to the `StoreSpec`
  function of its old state; `IncrementClickCount` does so only while objects
  are filed under their own short codes.
- `scenarios.dfy` (module `StorageScenarios`): the behaviours the store's
  tests check, derived from the class contracts alone.
- `random.dfy` (module `Random`): the secure random source as a stream of
  draws, and `rand.Int` as rejection of candidates outside `[0, max)`.
- `strings.dfy` (module `Utils`): the charset, the generator method over a
  `char` array with its loop invariant, and `Generated`, the function it is
  proved against.

Behaviour of the code that the model keeps:

- The charset has 62 symbols: ASCII letters and digits only, no `-` or `_`.
- `CreateURL` never assigns an ID. It stores whatever ID the caller put in the
  object.
- There is no short-code validator in this code, so none is modelled.
- Click counting is a plain `int64` increment, with no lock. It wraps around at the top of
  the range.

## Model

| member | source | states |
|---|---|---|
| `Storage.MockStorage.constructor` | internal/storage/mock_storage.go:21-25 | a new store holds no entries, and the key invariant holds for it |
| `Storage.MockStorage.CreateURL` | internal/storage/mock_storage.go:29-38 | a short code already in use gives the duplicate error and leaves the map unchanged; otherwise the caller's object is filed under its short code and nothing else changes; the value view changes as `StoreSpec.Create` says; the key invariant is kept |
| `Storage.MockStorage.GetURLByShortCode` | internal/storage/mock_storage.go:42-48 | returns the stored object itself iff the code is a key, otherwise `NotFound`; nothing is modified |
| `Storage.MockStorage.IncrementClickCount` | internal/storage/mock_storage.go:52-62 | succeeds iff some stored object carries the ID; then one such object, chosen in no particular order, gets one more click and every other counter and every other field stays as it was; otherwise `NotFound` and nothing changes; with the key invariant, the value view changes as `StoreSpec.Increment` says |
| `Storage.MockStorage.BumpedTable` | internal/storage/mock_storage.go:55-59 | bumping the counter of one object that is filed under its own code changes only that code's entry of the value view |
| `Storage.MockStorage.GetURLStats` | internal/storage/mock_storage.go:66-79 | succeeds iff the code is a key; then it reports exactly the stored short code, original URL, creation time and click count; otherwise `NotFound`; nothing is modified |
| `Storage.MockStorage.Close` | internal/storage/mock_storage.go:83-85 | always succeeds |
| `Models.WrapIncrement` | internal/storage/mock_storage.go:57 | `ClickCount++` on an `int64` adds exactly one below the top of the range and wraps to the bottom at the top |
| `Models.URL.constructor` | internal/models/url.go:10-17 | a new record holds exactly the given ID, original URL, short code, creation time and click count |
| `StoreSpec.CreateOutcome` | internal/storage/mock_storage.go:32-37 | a code in use is refused; a fresh code adds exactly one entry, the new code then looks up the record and every other code looks up what it did before |
| `StoreSpec.CreatePreserves` | internal/storage/mock_storage.go:36 | creation keeps every record filed under its own short code and lowers no counter |
| `StoreSpec.StatsOutcome` | internal/storage/mock_storage.go:67-78 | statistics exist iff the code is stored, and then equal the record's short code, URL, creation time and count; otherwise `NotFound` |
| `StoreSpec.IncrementPreserves` | internal/storage/mock_storage.go:55-61 | an increment keeps the set of codes, keeps records filed under their own codes, and lowers no counter when no record carrying the ID is at the top of the `int64` range |
| `StoreSpec.IncrementRaisesOne` | internal/storage/mock_storage.go:56-58 | a successful increment raises the counter of exactly one record carrying the ID, by exactly one, when no record carrying the ID is at the top of the `int64` range |
| `StoreSpec.IncrementUnique` | internal/storage/mock_storage.go:55-59 | when IDs are distinct the record bumped is the one carrying the ID, so the increment is deterministic |
| `StoreSpec.IncrementMayBumpAnyCarrier` | internal/storage/mock_storage.go:55-59 | when several records carry an ID, an increment of that ID may bump any one of them |
| `StoreSpec.IncrementsAddUp` | internal/storage/mock_storage.go:52-62 | when no two records share an ID, `n` successive increments of a record's ID raise its counter by exactly `n` and change no other record |
| `StorageScenarios.CreateOne` | internal/storage/storage_test.go:14-34 | after one creation in a new store the map holds exactly one entry |
| `StorageScenarios.CreateTwice` | internal/storage/storage_test.go:37-60 | the second creation of the same short code is refused |
| `StorageScenarios.LookUpStored` | internal/storage/storage_test.go:63-88 | lookup returns the stored URL and click count |
| `StorageScenarios.EmptyStoreNotFound` | internal/storage/storage_test.go:91-182 | lookup, increment and statistics on an empty store all give `NotFound`, as the three not-found tests at lines 91-99, 127-136 and 173-182 check |
| `StorageScenarios.IncrementSeenByCaller` | internal/storage/storage_test.go:102-125 | incrementing ID 1 makes the caller's own object go from 10 to 11 clicks |
| `StorageScenarios.StatsOfStored` | internal/storage/storage_test.go:139-171 | statistics report the stored code, URL, creation time and 42 clicks |
| `StorageScenarios.CreateVisitStats` | internal/storage/mock_storage.go:29-79 | create, look up, increment by the found ID, then statistics report one click |
| `Random.Int` | internal/utils/strings.go:24 | every index the random source yields lies in `[0, max)`; each call uses at least one draw |
| `Random.IntAcceptsFirstInRange` | internal/utils/strings.go:24-27 | the source yields the first candidate in range when no failure comes before it |
| `Utils.CharsetLayout` | internal/utils/strings.go:19 | the charset holds the lower-case letters, then the upper-case letters, then the digits, in order |
| `Utils.CharsetIsAlphanumeric` | internal/utils/strings.go:19 | the charset has exactly 62 distinct symbols, and a character is in it iff it is an ASCII letter or digit |
| `Utils.Generated` | internal/utils/strings.go:21-29 | drawing `n` symbols gives, on success, a string of exactly `n` charset symbols |
| `Utils.GeneratedFailureSticks` | internal/utils/strings.go:25-27 | once a draw has failed, no longer run succeeds: the first failure is the result |
| `Utils.GeneratedPrefix` | internal/utils/strings.go:22-29 | the first `i` symbols of a successful run are those of the run of `i` draws |
| `Utils.GeneratedIsAlphanumeric` | internal/utils/strings.go:28 | every generated symbol is an ASCII letter or digit |
| `Utils.GeneratedFromAcceptedDraws` | internal/utils/strings.go:22-29 | when the draws are accepted at once, position `k` holds the charset symbol at the `k`-th index and exactly `n` draws are used |
| `Utils.GenerateRandomString` | internal/utils/strings.go:14-31 | a non-positive length gives an error and the empty string; otherwise success gives exactly `length` charset symbols, a random-source failure gives that error and the empty string, and the outcome is the one `Generated` describes |

## Left out

- `context.Context` parameters: the store ignores them, so the model drops them.
- Concurrent callers: `MockStorage` has no lock and the model is sequential, so it says nothing about racing calls.
- `time.Time` is an opaque `Timestamp`. The store only copies it.
- `crypto/rand` is an abstract stream of candidate values and read failures. The model does not cover how `rand.Int` masks bytes, and it makes no claim about distribution or uniformity.
- Go's `string(result)` conversion of the byte buffer is modelled as a `char` array. Every charset symbol is ASCII, so nothing is lost.
- `make([]byte, lenght)` for a length too large to allocate aborts the Go program. The model has no memory limit.
- Creation time field: `models.URL` and `models.URLStats` declare only `CrreatedAt` (internal/models/url.go:14, 33), but the store reads `url.CreatedAt` and sets `CreatedAt:` (internal/storage/mock_storage.go:76). The store's tests set `CreatedAt:` too (internal/storage/storage_test.go:21, 44, 70, 110, 148), and they import the module path `url-shortner` where the store imports `url-shortener` (storage_test.go:10, mock_storage.go:9). So these lines do not compile as written. The model assumes that one field, `createdAt`, was meant. `Storage.MockStorage.GetURLStats` and `StorageScenarios.StatsOfStored` model that intended code.
- `Storage.MockStorage.IncrementClickCount`: the value-level statement (`StoreSpec.Increment`) is given only when objects are filed under their own short codes. A caller that renames a stored object, or files one object under two codes, falls outside it. The object-level `ensures` still hold in that case.
- `StoreSpec.IncrementPreserves`: counter monotonicity is stated only while no record carrying the ID is at the top of the `int64` range. The source's `ClickCount++` wraps around there.
- `StoreSpec.IncrementsAddUp`: holds only when no two records share an ID. Nothing in the store makes IDs distinct: `CreateURL` keeps the caller's ID (internal/storage/mock_storage.go:36), and the shortening handler builds every record without an ID (internal/handlers/url_handler.go:66-69), so in this store every record it creates carries ID 0. With two or more records, an increment by a looked-up record's ID may bump a different record (`StoreSpec.IncrementMayBumpAnyCarrier`). The model does not state how a run of increments is spread over the records that share an ID.
- Nil pointers: the `URL` class type is non-null, so a nil `*models.URL` cannot occur in the model. In the source, `CreateURL` with a nil record panics when it reads the short code (internal/storage/mock_storage.go:32). A nil value in the map makes `IncrementClickCount` panic (line 56) and `GetURLStats` panic (line 74). No caller in the source passes nil.
- The PostgreSQL store (internal/storage/postgers.go) is not part of this model: SQL through a foreign library.
- The HTTP handlers, middleware, configuration loading and server startup are not part of this model: transport, logging, environment and process concerns.
- The probabilistic uniqueness test of the generator is not a deterministic property and is not modelled.
