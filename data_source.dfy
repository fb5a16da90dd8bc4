/** Row access for the virtual table (components/.../table/DataSource.kt):
    an in-memory source over a list and a lazy source that asks a fetcher
    for pages and caches what it gets. */
module DataSources {
  import opened Wrappers
  import opened Text

  /** The exceptions the sources throw. */
  datatype SourceError =
    | IndexOutOfBounds(index: int, size: int)   // `require` in get
    | InvalidRange(start: int, count: int)      // `subList` with a bad range
    | EmptyFetch(index: int)                    // the fetcher returned nothing

  /** `InMemoryDataSource`: its only field is the immutable backing list. */
  datatype InMemoryDataSource<T> = InMemoryDataSource(data: seq<T>)
  {
    function Size(): (n: nat)
      ensures n == |data|
    {
      |data|
    }

    /** `get`: the row at `index`, or the out-of-bounds failure. */
    function Get(index: int): (r: Result<T, SourceError>)
      ensures r.Success? <==> 0 <= index < |data|
      ensures r.Success? ==> r.value == data[index]
      ensures r.Failure? ==> r.error == IndexOutOfBounds(index, |data|)
    {
      if 0 <= index < |data| then Success(data[index])
      else Failure(IndexOutOfBounds(index, |data|))
    }

    /** `getRange`: empty from the end onwards; otherwise `subList(start,
        min(start + count, size))`, which throws for a negative start or a
        negative count. */
    function GetRange(start: int, count: int): (r: Result<seq<T>, SourceError>)
      ensures r.Failure? <==> start < |data| && (start < 0 || count < 0)
      ensures r.Failure? ==> r.error == InvalidRange(start, count)
      ensures start >= |data| ==> r == Success([])
      ensures r.Success? && start < |data| ==>
        |r.value| == Min(count, |data| - start) &&
        forall i :: 0 <= i < |r.value| ==> r.value[i] == data[start + i]
    {
      if start >= |data| then Success([])
      else if start < 0 || count < 0 then Failure(InvalidRange(start, count))
      else Success(data[start..Min(start + count, |data|)])
    }
  }

  /** The cache after storing `items` at keys `start`, `start + 1`, ...,
      in that order. */
  function Cached<T>(cache: map<int, T>, start: int, items: seq<T>): (c: map<int, T>)
    ensures forall k :: k in c <==> k in cache || start <= k < start + |items|
    ensures forall k :: start <= k < start + |items| ==> c[k] == items[k - start]
    ensures forall k :: k in cache && !(start <= k < start + |items|) ==> c[k] == cache[k]
    decreases |items|
  {
    if items == [] then cache
    else Cached(cache, start, items[..|items| - 1])[start + |items| - 1 := items[|items| - 1]]
  }

  /** `LazyDataSource`: a declared size, a fetcher `(offset, limit) -> rows`
      (modelled as a pure function) and a cache from row index to row. */
  class LazyDataSource<T> {
    const size: int
    const fetcher: (int, int) -> seq<T>
    var cache: map<int, T>

    constructor (size: int, fetcher: (int, int) -> seq<T>)
      ensures this.size == size && this.fetcher == fetcher && cache == map[]
    {
      this.size := size;
      this.fetcher := fetcher;
      cache := map[];
    }

    /** The fetcher serves the rows of `data`, clipped at its end. */
    ghost predicate Serves(data: seq<T>)
    {
      size == |data| &&
      forall s, c :: 0 <= s < |data| && 0 <= c ==> fetcher(s, c) == data[s..Min(s + c, |data|)]
    }

    /** Every cached row is the row of `data` at that index. */
    ghost predicate CacheAgrees(data: seq<T>)
      reads this
    {
      forall k :: k in cache ==> 0 <= k < |data| && cache[k] == data[k]
    }

    /** `get`: rejects indices outside `0 until size`; a cached row is
        returned as is; otherwise the fetcher is asked for one row, which is
        cached, and an empty answer is an error. */
    method Get(index: int) returns (r: Result<T, SourceError>)
      modifies this`cache
      ensures !(0 <= index < size) ==> r == Failure(IndexOutOfBounds(index, size)) && cache == old(cache)
      ensures 0 <= index < size && index in old(cache) ==> r == Success(old(cache)[index]) && cache == old(cache)
      ensures 0 <= index < size && index !in old(cache) && fetcher(index, 1) == [] ==>
        r == Failure(EmptyFetch(index)) && cache == old(cache)
      ensures 0 <= index < size && index !in old(cache) && fetcher(index, 1) != [] ==>
        r == Success(fetcher(index, 1)[0]) && cache == old(cache)[index := fetcher(index, 1)[0]]
    {
      if !(0 <= index < size) {
        return Failure(IndexOutOfBounds(index, size));
      }
      if index in cache {
        return Success(cache[index]);
      }
      var results := fetcher(index, 1);
      if results == [] {
        return Failure(EmptyFetch(index));
      }
      cache := cache[index := results[0]];
      r := Success(results[0]);
    }

    /** `getRange`: empty from `size` onwards; otherwise fetches
        `min(count, size - start)` rows at `start` and caches each at
        `start + offset`. */
    method GetRange(start: int, count: int) returns (rows: seq<T>)
      modifies this`cache
      ensures start >= size ==> rows == [] && cache == old(cache)
      ensures start < size ==>
        rows == fetcher(start, Min(count, size - start)) && cache == Cached(old(cache), start, rows)
    {
      if start >= size {
        return [];
      }
      var actualCount := Min(count, size - start);
      var results := fetcher(start, actualCount);
      var offset := 0;
      while offset < |results|
        invariant 0 <= offset <= |results|
        invariant cache == Cached(old(cache), start, results[..offset])
      {
        assert results[..offset + 1][..offset] == results[..offset];
        cache := cache[start + offset := results[offset]];
        offset := offset + 1;
      }
      assert results[..|results|] == results;
      rows := results;
    }

    /** `clearCache`. */
    method ClearCache()
      modifies this`cache
      ensures cache == map[]
    {
      cache := map[];
    }

    /** With a fetcher that serves `data` and a cache that agrees with it,
        the lazy source answers `get` exactly as the in-memory source over
        `data` does (an empty fetch cannot happen), and the cache keeps
        agreeing. */
    method GetAgrees(index: int, ghost data: seq<T>) returns (r: Result<T, SourceError>)
      requires Serves(data) && CacheAgrees(data)
      modifies this`cache
      ensures r == InMemoryDataSource(data).Get(index)
      ensures CacheAgrees(data)
    {
      if 0 <= index < size && index !in cache {
        assert fetcher(index, 1) == data[index..index + 1];
      }
      r := Get(index);
    }

    /** The same for `getRange`, on the inputs where the in-memory source
        does not throw. */
    method GetRangeAgrees(start: int, count: int, ghost data: seq<T>) returns (rows: seq<T>)
      requires Serves(data) && CacheAgrees(data)
      requires InMemoryDataSource(data).GetRange(start, count).Success?
      modifies this`cache
      ensures rows == InMemoryDataSource(data).GetRange(start, count).value
      ensures CacheAgrees(data)
    {
      rows := GetRange(start, count);
      if start < size {
        assert rows == data[start..Min(start + count, |data|)];
      }
    }
  }
}
