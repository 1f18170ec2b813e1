/** The record types of internal/models/url.go. */
module Models {

  const MinInt64: int := -0x8000_0000_0000_0000
  const MaxInt64: int := 0x7fff_ffff_ffff_ffff

  /** Go's `int64`. */
  type int64 = x: int | MinInt64 <= x <= MaxInt64

  /** `time.Time`, kept opaque: the store never inspects it. */
  datatype Timestamp = Timestamp(unixNanos: int)

  /** Go's `x++` on an `int64`: two's-complement wrap-around at the top of the range. */
  function WrapIncrement(x: int64): (r: int64)
    ensures x < MaxInt64 ==> r == x + 1
    ensures x == MaxInt64 ==> r == MinInt64
  {
    (x + 1 - MinInt64) % 0x1_0000_0000_0000_0000 + MinInt64
  }

  /** The value of a `URL` object's fields at one moment. */
  datatype URLRecord = URLRecord(
    id: int64,
    originalURL: string,
    shortCode: string,
    createdAt: Timestamp,
    clickCount: int64)

  /** `models.URL`: a heap object; the store keeps the caller's pointer, so
      both see every later change of its fields. */
  class URL {
    var id: int64
    var originalURL: string
    var shortCode: string
    var createdAt: Timestamp
    var clickCount: int64

    constructor (id: int64, originalURL: string, shortCode: string, createdAt: Timestamp, clickCount: int64)
      ensures Snapshot() == URLRecord(id, originalURL, shortCode, createdAt, clickCount)
    {
      this.id := id;
      this.originalURL := originalURL;
      this.shortCode := shortCode;
      this.createdAt := createdAt;
      this.clickCount := clickCount;
    }

    /** The current values of all five fields. */
    function Snapshot(): URLRecord
      reads this
    {
      URLRecord(id, originalURL, shortCode, createdAt, clickCount)
    }
  }

  /** `models.URLStats`: the fields the statistics endpoint reports. */
  datatype URLStats = URLStats(
    shortCode: string,
    originalURL: string,
    createdAt: Timestamp,
    clickCount: int64)

  /** The projection of a record onto its statistics. */
  function StatsOf(r: URLRecord): URLStats
  {
    URLStats(r.shortCode, r.originalURL, r.createdAt, r.clickCount)
  }
}
