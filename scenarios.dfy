/** The behaviours internal/storage/storage_test.go pins down, derived from the
    contracts of `MockStorage` alone. */
module StorageScenarios {
  import opened Wrappers
  import opened Models
  import opened StoreSpec
  import opened Storage

  /** A fresh store holds exactly one entry after one creation. */
  method CreateOne(createdAt: Timestamp) returns (out: Outcome<StoreError>, size: nat)
    ensures out == Pass && size == 1
  {
    var store := new MockStorage();
    var testURL := new URL(0, "https://example.com", "test123", createdAt, 0);
    out := store.CreateURL(testURL);
    size := |store.urls|;
  }

  /** Creating the same object twice: the second attempt is refused. */
  method CreateTwice(createdAt: Timestamp) returns (first: Outcome<StoreError>, second: Outcome<StoreError>)
    ensures first == Pass && second == Fail(DuplicateShortCode)
  {
    var store := new MockStorage();
    var testURL := new URL(0, "https://example.com", "duplicate", createdAt, 0);
    first := store.CreateURL(testURL);
    second := store.CreateURL(testURL);
  }

  /** An object placed in the map directly is found with its fields. */
  method LookUpStored(createdAt: Timestamp) returns (original: string, clicks: int64)
    ensures original == "https://example.com" && clicks == 5
  {
    var store := new MockStorage();
    var testURL := new URL(0, "https://example.com", "test123", createdAt, 5);
    store.urls := store.urls["test123" := testURL];
    var r := store.GetURLByShortCode("test123");
    original, clicks := r.value.originalURL, r.value.clickCount;
  }

  /** On an empty store, lookup, increment and statistics all report `NotFound`. */
  method EmptyStoreNotFound() returns (lookup: Result<URL, StoreError>, inc: Outcome<StoreError>, stats: Result<URLStats, StoreError>)
    ensures lookup == Err(NotFound) && inc == Fail(NotFound) && stats == Err(NotFound)
  {
    var store := new MockStorage();
    lookup := store.GetURLByShortCode("nonexistent");
    inc := store.IncrementClickCount(999);
    stats := store.GetURLStats("nonexistent");
  }

  /** The increment goes through the stored pointer: the caller's own object
      sees the counter go from 10 to 11. */
  method IncrementSeenByCaller(createdAt: Timestamp) returns (out: Outcome<StoreError>, clicks: int64)
    ensures out == Pass && clicks == 11
  {
    var store := new MockStorage();
    var testURL := new URL(1, "https://example.com", "test123", createdAt, 10);
    store.urls := store.urls["test123" := testURL];
    assert store.urls["test123"].id == 1;
    out := store.IncrementClickCount(1);
    clicks := testURL.clickCount;
  }

  /** Statistics report the stored short code, URL, creation time and count. */
  method StatsOfStored(createdAt: Timestamp) returns (r: Result<URLStats, StoreError>)
    ensures r == Ok(URLStats("test123", "https://example.com", createdAt, 42))
  {
    var store := new MockStorage();
    var testURL := new URL(1, "https://example.com", "test123", createdAt, 42);
    store.urls := store.urls["test123" := testURL];
    r := store.GetURLStats("test123");
  }

  /** Create, follow the short code once, then ask for statistics: one click. */
  method CreateVisitStats(createdAt: Timestamp, id: int64) returns (r: Result<URLStats, StoreError>)
    ensures r == Ok(URLStats("abc123", "https://example.com", createdAt, 1))
  {
    var store := new MockStorage();
    var u := new URL(id, "https://example.com", "abc123", createdAt, 0);
    var created := store.CreateURL(u);
    assert store.urls == map["abc123" := u];
    var found := store.GetURLByShortCode("abc123");
    assert store.urls["abc123"].id == found.value.id;
    var inc := store.IncrementClickCount(found.value.id);
    assert u.clickCount == 1;
    r := store.GetURLStats("abc123");
  }
}
