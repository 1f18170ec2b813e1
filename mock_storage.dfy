/** internal/storage/mock_storage.go: the in-memory store. */
module Storage {
  import opened Wrappers
  import opened Models
  import opened StoreSpec

  /** `MockStorage`: a map from short code to the caller's own `URL` object. */
  class MockStorage {
    var urls: map<string, URL>

    /** The records the store holds, as values. */
    ghost function Table(): Table
      reads this, urls.Values
    {
      map code | code in urls :: urls[code].Snapshot()
    }

    /** Every stored object is filed under its own short code. No operation of
        the store needs this, and every operation keeps it; a caller that
        renames a stored object breaks it. */
    ghost predicate Valid()
      reads this, urls.Values
    {
      forall code :: code in urls ==> urls[code].shortCode == code
    }

    /** `NewMockStorage`. */
    constructor ()
      ensures urls == map[] && Table() == map[] && Valid()
    {
      urls := map[];
    }

    /** `CreateURL`: refuses a short code in use, otherwise files the caller's
        object under its short code. */
    method CreateURL(url: URL) returns (out: Outcome<StoreError>)
      modifies this`urls
      ensures out == if url.shortCode in old(urls) then Fail(DuplicateShortCode) else Pass
      ensures out.Pass? ==> urls == old(urls)[url.shortCode := url]
      ensures out.Fail? ==> urls == old(urls)
      ensures Create(old(Table()), url.Snapshot()) == if out.Pass? then Ok(Table()) else Err(DuplicateShortCode)
      ensures old(Valid()) ==> Valid()
    {
      if url.shortCode in urls {
        return Fail(DuplicateShortCode);
      }
      urls := urls[url.shortCode := url];
      out := Pass;
      assert Table() == old(Table())[url.shortCode := url.Snapshot()];
    }

    /** `GetURLByShortCode`: the stored object itself (not a copy), or `NotFound`. */
    method GetURLByShortCode(code: string) returns (r: Result<URL, StoreError>)
      ensures r.Ok? <==> code in urls
      ensures r.Ok? ==> r.value == urls[code]
      ensures r.Err? ==> r.error == NotFound
      ensures Lookup(Table(), code) == if r.Ok? then Ok(r.value.Snapshot()) else Err(NotFound)
    {
      if code !in urls {
        return Err(NotFound);
      }
      r := Ok(urls[code]);
    }

    /** `IncrementClickCount`: scans the stored objects in no particular order
        and bumps the counter of the first one carrying `id`; `NotFound` when
        none does. Only counters change. */
    method IncrementClickCount(id: int64) returns (out: Outcome<StoreError>)
      modifies urls.Values`clickCount
      ensures out.Pass? <==> exists code :: code in urls && urls[code].id == id
      ensures out.Fail? ==> out.error == NotFound
      ensures out.Fail? ==> forall u :: u in urls.Values ==> u.clickCount == old(u.clickCount)
      ensures out.Pass? ==>
        exists code :: code in urls && urls[code].id == id
          && urls[code].clickCount == WrapIncrement(old(urls[code].clickCount))
          && forall u :: u in urls.Values && u != urls[code] ==> u.clickCount == old(u.clickCount)
      ensures old(Valid()) ==> Valid() && Increment(old(Table()), id, Table(), out)
    {
      var todo := urls.Keys;
      while todo != {}
        invariant todo <= urls.Keys
        invariant forall code :: code in urls && code !in todo ==> urls[code].id != id
        invariant forall u :: u in urls.Values ==> u.clickCount == old(u.clickCount)
        decreases todo
      {
        var code :| code in todo;
        if urls[code].id == id {
          var u := urls[code];
          u.clickCount := WrapIncrement(u.clickCount);
          out := Pass;
          BumpedTable(code);
          return;
        }
        todo := todo - {code};
      }
      out := Fail(NotFound);
      assert Table() == old(Table());
    }

    /** After the object filed under `code` got one more click and nothing
        else changed, the table is `Bump` of the old one, provided objects were
        filed under their own codes. */
    twostate lemma BumpedTable(code: string)
      requires code in urls && urls == old(urls)
      requires urls[code].Snapshot() == old(urls[code].Snapshot()).(clickCount := WrapIncrement(old(urls[code].clickCount)))
      requires forall u :: u in urls.Values && u != urls[code] ==> u.Snapshot() == old(u.Snapshot())
      ensures old(Valid()) ==> Valid() && Table() == Bump(old(Table()), code)
    {
      forall c | c in urls ensures urls[c].shortCode == old(urls[c].shortCode) {
        if urls[c] != urls[code] {
          assert urls[c].Snapshot() == old(urls[c].Snapshot());
        }
      }
      if old(Valid()) {
        forall c | c in urls && c != code ensures urls[c] != urls[code] {
          assert old(urls[c].shortCode) == c;
        }
      }
    }

    /** `GetURLStats`: the short code, original URL, creation time and click
        count of the stored object, or `NotFound`. */
    method GetURLStats(code: string) returns (r: Result<URLStats, StoreError>)
      ensures r.Ok? <==> code in urls
      ensures r.Err? ==> r.error == NotFound
      ensures r.Ok? ==>
        && r.value.shortCode == urls[code].shortCode
        && r.value.originalURL == urls[code].originalURL
        && r.value.createdAt == urls[code].createdAt
        && r.value.clickCount == urls[code].clickCount
      ensures r == Stats(Table(), code)
    {
      if code !in urls {
        return Err(NotFound);
      }
      var u := urls[code];
      r := Ok(URLStats(u.shortCode, u.originalURL, u.createdAt, u.clickCount));
    }

    /** `Close`: nothing to release. */
    method Close() returns (out: Outcome<StoreError>)
      ensures out == Pass
    {
      out := Pass;
    }
  }
}
