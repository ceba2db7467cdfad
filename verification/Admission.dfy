/**
 Storage admission: the projected growth of the database file and the guard
 that compares it with the size ceiling and the free-space reserve (store.go).
 The arithmetic is Go's `int64`: the additions that can leave the range wrap
 around as in Go, and for every other step staying in range is verified.
 */
module Admission {
  import opened Prelude

  const LEAF_ELEMENT_BYTES: int64 := 16
  const MAX_INT: int64 := 0x7FFF_FFFF_FFFF_FFFF

  /** The bytes of a key in three buckets, its batch, its receipt, the FIFO key and the page headers. */
  function RecordBytes(key: nat, batch: nat, receipt: nat): nat {
    batch + receipt + 3 * key + 8 + 3 * LEAF_ELEMENT_BYTES as nat
  }

  /** Each record adds an entry to three buckets: key and batch, eight bytes and key, key and receipt, 16 bytes of header each. */
  lemma RecordIsThreeEntries(key: nat, batch: nat, receipt: nat)
    ensures RecordBytes(key, batch, receipt) == (key + batch + 16) + (8 + key + 16) + (key + receipt + 16)
  {
  }

  /** Two's complement: the `int64` that Go computes for the exact result `x`. */
  function Wrap(x: int): int64 {
    var low := x % 0x1_0000_0000_0000_0000;
    (if low <= MAX_INT64 then low else low - 0x1_0000_0000_0000_0000) as int64
  }

  /** `n + unit - 1`, added from left to right. */
  function RoundUp(n: int64, unit: int64): int64 {
    Wrap(Wrap(n as int + unit as int) as int - 1)
  }

  /** `projectedAcceptanceGrowth` for a record of `recordBytes`. */
  function ProjectedGrowth(pageSize: int64, allocSize: int64, recordBytes: int64): int64
    requires recordBytes >= 0
  {
    if pageSize <= 0 || allocSize < 0 then MAX_INT
    else if recordBytes > MAX_INT - pageSize + 1 || allocSize > MAX_INT - pageSize + 1 then MAX_INT
    else
      PagesFit(recordBytes as int, pageSize as int);
      PagesFit(allocSize as int, pageSize as int);
      var dataPages := RoundUp(recordBytes, pageSize) / pageSize;
      var allocPages := RoundUp(allocSize, pageSize) / pageSize;
      var maxPages := MAX_INT / pageSize;
      if allocPages > maxPages || dataPages > (maxPages - allocPages) / 2 then MAX_INT
      else
        TotalFits(dataPages as int, allocPages as int, maxPages as int, pageSize as int);
        (2 * dataPages + allocPages) * pageSize
  }

  /** The least number of whole units of `unit` that hold `n`. */
  function CeilDiv(n: int, unit: int): int
    requires unit > 0
  {
    (n + unit - 1) / unit
  }

  lemma PagesFit(n: int, page: int)
    requires 0 <= n <= MAX_INT64 && n <= MAX_INT64 - page + 1 && 0 < page <= MAX_INT64
    ensures RoundUp(n as int64, page as int64) as int == n + page - 1
    ensures 0 <= CeilDiv(n, page) <= MAX_INT64
    ensures 0 <= MAX_INT64 / page <= MAX_INT64
  {
    WrapsBack(n, page);
    QuotientBounds(n + page - 1, page);
    QuotientBounds(MAX_INT64, page);
  }

  /**
   The guard before the rounding lets through one value for which the first
   addition does leave the range; subtracting one wraps it back.
   */
  lemma WrapsBack(n: int, page: int)
    requires 0 <= n <= MAX_INT64 - page + 1 && 0 < page <= MAX_INT64
    ensures RoundUp(n as int64, page as int64) as int == n + page - 1
    ensures Wrap(n + page) as int == n + page <==> n != MAX_INT64 - page + 1
  {
  }

  lemma QuotientBounds(a: int, b: int)
    requires 0 <= a && 0 < b
    ensures 0 <= a / b <= a && (a / b) * b <= a < (a / b + 1) * b
  {
    assert a == (a / b) * b + a % b;
    MulGrows(a / b, b);
  }

  lemma MulGrows(a: int, b: int)
    requires 0 <= a && 0 < b
    ensures a <= a * b
  {
  }

  lemma MulMonotone(a: int, b: int, c: int)
    requires a <= b && 0 <= c
    ensures a * c <= b * c
  {
  }

  lemma TotalFits(data: int, alloc: int, maxPages: int, page: int)
    requires 0 < page <= MAX_INT64 && maxPages == MAX_INT64 / page
    requires 0 <= data && 0 <= alloc <= maxPages && data <= (maxPages - alloc) / 2
    ensures 0 <= 2 * data + alloc <= maxPages <= MAX_INT64
    ensures 0 <= (2 * data + alloc) * page <= MAX_INT64
  {
    QuotientBounds(MAX_INT64, page);
    MulMonotone(2 * data + alloc, maxPages, page);
    MulMonotone(0, 2 * data + alloc, page);
  }

  /** Doubled data pages plus allocation pages, in whole pages of bytes. */
  function ExactGrowth(pageSize: int, allocSize: int, recordBytes: int): int
    requires pageSize > 0
  {
    (2 * CeilDiv(recordBytes, pageSize) + CeilDiv(allocSize, pageSize)) * pageSize
  }

  lemma CeilCovers(n: int, unit: int)
    requires 0 <= n && 0 < unit
    ensures 0 <= CeilDiv(n, unit) && n <= CeilDiv(n, unit) * unit < n + unit
  {
    QuotientBounds(n + unit - 1, unit);
    assert (CeilDiv(n, unit) + 1) * unit == CeilDiv(n, unit) * unit + unit;
  }

  /**
   The projection is the exact page count, saturated at the largest `int64`:
   the early exits fire only when the exact value has left the range.
   */
  lemma GrowthIsExact(pageSize: int64, allocSize: int64, recordBytes: int64)
    requires pageSize > 0 && allocSize >= 0 && recordBytes > 0
    ensures ProjectedGrowth(pageSize, allocSize, recordBytes) as int ==
      Min(MAX_INT64, ExactGrowth(pageSize as int, allocSize as int, recordBytes as int))
  {
    var p, a, r := pageSize as int, allocSize as int, recordBytes as int;
    if r > MAX_INT64 - p + 1 || a > MAX_INT64 - p + 1 {
      LargeInputSaturates(p, a, r);
    } else {
      PagesFit(r, p);
      PagesFit(a, p);
      PagesDecide(CeilDiv(r, p), CeilDiv(a, p), MAX_INT64 / p, p);
    }
    hide CeilDiv;
  }

  /** An input so large that rounding it up could overflow needs more than the range by itself. */
  lemma LargeInputSaturates(p: int, a: int, r: int)
    requires 0 < p <= MAX_INT64 && 0 <= a && 0 < r
    requires r > MAX_INT64 - p + 1 || a > MAX_INT64 - p + 1
    ensures ExactGrowth(p, a, r) >= MAX_INT64
  {
    CeilCovers(r, p);
    CeilCovers(a, p);
    var data, alloc := CeilDiv(r, p), CeilDiv(a, p);
    assert data >= 1 by { if data <= 0 { MulMonotone(data, 0, p); } }
    MulMonotone(1, data, p);
    assert (2 * data + alloc) * p == 2 * (data * p) + alloc * p;
    hide CeilDiv;
  }

  /** The page counts are refused exactly if their bytes leave the range. */
  lemma PagesDecide(data: int, alloc: int, maxPages: int, page: int)
    requires 0 < page <= MAX_INT64 && maxPages == MAX_INT64 / page && 0 <= data && 0 <= alloc
    ensures alloc > maxPages || data > (maxPages - alloc) / 2 ==> (2 * data + alloc) * page > MAX_INT64
    ensures alloc <= maxPages && data <= (maxPages - alloc) / 2 ==> (2 * data + alloc) * page <= MAX_INT64
  {
    QuotientBounds(MAX_INT64, page);
    if alloc > maxPages || data > (maxPages - alloc) / 2 {
      MulMonotone(maxPages + 1, 2 * data + alloc, page);
    } else {
      TotalFits(data, alloc, maxPages, page);
    }
  }

  lemma CeilMonotone(m: int, n: int, unit: int)
    requires 0 <= m <= n && 0 < unit
    ensures CeilDiv(m, unit) <= CeilDiv(n, unit)
  {
    CeilCovers(m, unit);
    CeilCovers(n, unit);
    if CeilDiv(n, unit) < CeilDiv(m, unit) {
      MulMonotone(CeilDiv(n, unit) + 1, CeilDiv(m, unit), unit);
    }
  }

  lemma ExactGrowthIsMonotone(p: int, a: int, smaller: int, larger: int)
    requires p > 0 && a >= 0 && 0 <= smaller <= larger
    ensures ExactGrowth(p, a, smaller) <= ExactGrowth(p, a, larger)
  {
    CeilMonotone(smaller, larger, p);
    hide CeilDiv;
    MulMonotone(2 * CeilDiv(smaller, p) + CeilDiv(a, p), 2 * CeilDiv(larger, p) + CeilDiv(a, p), p);
  }

  /** A larger record never projects less growth. */
  lemma GrowthIsMonotone(pageSize: int64, allocSize: int64, smaller: int64, larger: int64)
    requires 0 < smaller <= larger
    ensures ProjectedGrowth(pageSize, allocSize, smaller) <= ProjectedGrowth(pageSize, allocSize, larger)
  {
    if pageSize > 0 && allocSize >= 0 {
      GrowthIsExact(pageSize, allocSize, smaller);
      GrowthIsExact(pageSize, allocSize, larger);
      ExactGrowthIsMonotone(pageSize as int, allocSize as int, smaller as int, larger as int);
    }
    hide CeilDiv, ExactGrowth, RoundUp;
  }

  lemma ExactGrowthCovers(p: int, a: int, r: int)
    requires p > 0 && a >= 0 && r >= 0
    ensures ExactGrowth(p, a, r) >= 2 * r + a
  {
    CeilCovers(r, p);
    CeilCovers(a, p);
    var data, alloc := CeilDiv(r, p), CeilDiv(a, p);
    assert (2 * data + alloc) * p == 2 * (data * p) + alloc * p;
    hide CeilDiv;
  }

  /**
   The growth projected for a record covers twice all its bytes plus the
   allocation, unless it is saturated, and grows with each of its parts.
   */
  lemma GrowthCoversRecord(pageSize: int64, allocSize: int64, key: nat, batch: nat, receipt: nat, key': nat, batch': nat, receipt': nat)
    requires pageSize > 0 && allocSize >= 0 && RecordBytes(key', batch', receipt') <= MAX_INT64
    requires key <= key' && batch <= batch' && receipt <= receipt'
    ensures RecordBytes(key, batch, receipt) <= RecordBytes(key', batch', receipt')
    ensures var growth := ProjectedGrowth(pageSize, allocSize, RecordBytes(key, batch, receipt) as int64);
      && growth <= ProjectedGrowth(pageSize, allocSize, RecordBytes(key', batch', receipt') as int64)
      && (growth < MAX_INT ==> growth as int >= 2 * (batch + receipt + 3 * key + 56) + allocSize as int)
  {
    hide ProjectedGrowth, CeilDiv, ExactGrowth;
    var r := RecordBytes(key, batch, receipt);
    GrowthIsMonotone(pageSize, allocSize, r as int64, RecordBytes(key', batch', receipt') as int64);
    GrowthIsExact(pageSize, allocSize, r as int64);
    ExactGrowthCovers(pageSize as int, allocSize as int, r);
  }

  /** The guard's limits; a limit that is not positive is not enforced. */
  datatype Guard = Guard(maxDbBytes: int64, minFreeBytes: int64)
  {
    /** `Check`: `size` and `available` are what the file system reports, or nothing on error. */
    predicate Admits(growth: int64, size: Option<int64>, available: Option<int64>) {
      && growth >= 0
      && (maxDbBytes > 0 ==> size.Some? && size.value <= maxDbBytes - growth)
      && (minFreeBytes > 0 ==>
            && available.Some?
            && available.value >= minFreeBytes
            && growth <= available.value - minFreeBytes)
    }
  }

  /**
   With mathematical integers: the guard admits exactly when, for every limit in
   force, the grown file stays within the ceiling and the remaining free space
   keeps the reserve.
   */
  lemma GuardIsExact(guard: Guard, growth: int64, size: int64, available: int64)
    ensures guard.Admits(growth, Some(size), Some(available)) <==>
      && growth >= 0
      && (guard.maxDbBytes > 0 ==> size as int + growth as int <= guard.maxDbBytes as int)
      && (guard.minFreeBytes > 0 ==> available as int - growth as int >= guard.minFreeBytes as int)
  {
  }

  /** Saturation never lets a record through a ceiling its true growth would break. */
  lemma SaturatedGrowthIsRefused(guard: Guard, pageSize: int64, allocSize: int64, recordBytes: int64,
                                 size: int64, available: Option<int64>)
    requires pageSize > 0 && allocSize >= 0 && recordBytes > 0 && size > 0 && guard.maxDbBytes > 0
    ensures guard.Admits(ProjectedGrowth(pageSize, allocSize, recordBytes), Some(size), available) ==>
      size as int + ExactGrowth(pageSize as int, allocSize as int, recordBytes as int) <= guard.maxDbBytes as int
  {
    GrowthIsExact(pageSize, allocSize, recordBytes);
  }
}
