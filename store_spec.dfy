/** The URL store of internal/storage as a value: a table from short code to
    record, and what each store operation does to it. */
module StoreSpec {
  import opened Wrappers
  import opened Models

  /** `ErrNotFound`, and the error `CreateURL` returns for a short code already in use. */
  datatype StoreError = NotFound | DuplicateShortCode

  type Table = map<string, URLRecord>

  /** Every record is filed under its own short code. */
  ghost predicate KeyedByShortCode(t: Table) {
    forall code :: code in t ==> t[code].shortCode == code
  }

  /** No two records share an ID. */
  ghost predicate UniqueIds(t: Table) {
    forall c1, c2 :: c1 in t && c2 in t && t[c1].id == t[c2].id ==> c1 == c2
  }

  /** Some record carries the ID `id`. */
  ghost predicate HasId(t: Table, id: int64) {
    exists code :: code in t && t[code].id == id
  }

  /** No record carrying `id` has its counter at the top of the `int64` range,
      so the next click on `id` cannot wrap. */
  ghost predicate CarriersBelowMax(t: Table, id: int64) {
    forall code :: code in t && t[code].id == id ==> t[code].clickCount < MaxInt64
  }

  /** `t'` keeps every code of `t`, every field but the click counter, and no counter went down. */
  ghost predicate Grows(t: Table, t': Table) {
    && t.Keys <= t'.Keys
    && forall code :: code in t ==>
         t'[code].(clickCount := t[code].clickCount) == t[code] && t'[code].clickCount >= t[code].clickCount
  }

  function Create(t: Table, r: URLRecord): Result<Table, StoreError> {
    if r.shortCode in t then Err(DuplicateShortCode) else Ok(t[r.shortCode := r])
  }

  function Lookup(t: Table, code: string): Result<URLRecord, StoreError> {
    if code in t then Ok(t[code]) else Err(NotFound)
  }

  function Stats(t: Table, code: string): Result<URLStats, StoreError> {
    match Lookup(t, code)
    case Ok(r) => Ok(StatsOf(r))
    case Err(e) => Err(e)
  }

  /** One more click on the record filed under `code`. */
  function Bump(t: Table, code: string): Table
    requires code in t
  {
    t[code := t[code].(clickCount := WrapIncrement(t[code].clickCount))]
  }

  /** `IncrementClickCount(id)`: when some record carries `id`, one such record,
      whichever the scan meets first, gets one more click; otherwise `NotFound`
      and nothing changes. */
  ghost predicate Increment(t: Table, id: int64, t': Table, out: Outcome<StoreError>) {
    if HasId(t, id) then
      out == Pass && exists code :: code in t && t[code].id == id && t' == Bump(t, code)
    else
      out == Fail(NotFound) && t' == t
  }

  /** A fresh code is added and nothing else changes: the table grows by one
      entry, the new code finds the record and every other code finds what it
      found before. A code in use is refused. */
  lemma CreateOutcome(t: Table, r: URLRecord)
    ensures r.shortCode in t ==> Create(t, r) == Err(DuplicateShortCode)
    ensures r.shortCode !in t ==>
      && Create(t, r).Ok?
      && Create(t, r).value.Keys == t.Keys + {r.shortCode}
      && |Create(t, r).value| == |t| + 1
      && Lookup(Create(t, r).value, r.shortCode) == Ok(r)
      && forall code :: code != r.shortCode ==> Lookup(Create(t, r).value, code) == Lookup(t, code)
  {
  }

  /** Creation keeps every record filed under its own short code and never
      lowers a counter. */
  lemma CreatePreserves(t: Table, r: URLRecord)
    requires Create(t, r).Ok?
    ensures KeyedByShortCode(t) ==> KeyedByShortCode(Create(t, r).value)
    ensures Grows(t, Create(t, r).value)
  {
  }

  /** The statistics of a code are exactly the stored record's short code,
      original URL, creation time and click count. */
  lemma StatsOutcome(t: Table, code: string)
    ensures Stats(t, code).Ok? <==> code in t
    ensures code !in t ==> Stats(t, code) == Err(NotFound)
    ensures code in t ==>
      && Stats(t, code).value.shortCode == t[code].shortCode
      && Stats(t, code).value.originalURL == t[code].originalURL
      && Stats(t, code).value.createdAt == t[code].createdAt
      && Stats(t, code).value.clickCount == t[code].clickCount
  {
  }

  /** An increment keeps the codes and every field but one counter, and
      keeps records filed under their own codes. */
  lemma IncrementPreserves(t: Table, id: int64, t': Table, out: Outcome<StoreError>)
    requires Increment(t, id, t', out)
    ensures t'.Keys == t.Keys && |t'| == |t|
    ensures KeyedByShortCode(t) ==> KeyedByShortCode(t')
    ensures CarriersBelowMax(t, id) ==> Grows(t, t')
  {
  }

  /** A successful increment raises exactly one counter, of a record carrying
      `id`, by exactly one (below the top of the `int64` range). */
  lemma IncrementRaisesOne(t: Table, id: int64, t': Table)
    requires Increment(t, id, t', Pass)
    requires CarriersBelowMax(t, id)
    ensures exists code :: code in t && t[code].id == id && t'[code].clickCount == t[code].clickCount + 1
    ensures forall c1, c2 :: c1 in t && c2 in t && c1 != c2 && t'[c1] != t[c1] ==> t'[c2] == t[c2]
  {
  }

  /** With distinct IDs the increment is deterministic: the one record that
      carries `id` is the one that is bumped. */
  lemma IncrementUnique(t: Table, code: string, t': Table, out: Outcome<StoreError>)
    requires UniqueIds(t)
    requires code in t
    requires Increment(t, t[code].id, t', out)
    ensures out == Pass && t' == Bump(t, code)
  {
  }

  /** Nothing in the store makes IDs distinct. When several records carry `id`,
      each of them may be the one bumped: the scan order decides. */
  lemma IncrementMayBumpAnyCarrier(t: Table, code: string)
    requires code in t
    ensures Increment(t, t[code].id, Bump(t, code), Pass)
  {
  }

  /** `n` increments of the ID of the record filed under `code`, one after the
      other, leave that record with exactly `n` more clicks when no counter wraps. */
  lemma {:induction false} IncrementsAddUp(ts: seq<Table>, code: string)
    requires |ts| > 0 && code in ts[0] && UniqueIds(ts[0])
    requires forall i :: 0 <= i < |ts| - 1 ==> Increment(ts[i], ts[0][code].id, ts[i + 1], Pass)
    requires ts[0][code].clickCount + |ts| - 1 <= MaxInt64
    ensures code in ts[|ts| - 1]
    ensures ts[|ts| - 1][code].clickCount == ts[0][code].clickCount + |ts| - 1
    ensures forall c :: c in ts[0] && c != code ==> c in ts[|ts| - 1] && ts[|ts| - 1][c] == ts[0][c]
    ensures UniqueIds(ts[|ts| - 1]) && ts[|ts| - 1].Keys == ts[0].Keys
    ensures ts[|ts| - 1][code].id == ts[0][code].id
    decreases |ts|
  {
    if |ts| > 1 {
      var prefix := ts[..|ts| - 1];
      IncrementsAddUp(prefix, code);
      var last := ts[|ts| - 2];
      assert last == prefix[|prefix| - 1];
      IncrementUnique(last, code, ts[|ts| - 1], Pass);
    }
  }
}
