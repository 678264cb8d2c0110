/** The audit table's retention pass: what is deleted by age and by size, and how far the size
    estimate lands from its target. Floats are exact rationals here. */
module AuditRetention {
  import opened Sequences

  const NANOS_PER_DAY: int := 24 * 3600 * 1_000_000_000
  const BYTES_PER_MB: int := 1024 * 1024

  datatype Entry = Entry(id: int, ts: int)

  /** Zero disables either prune. */
  datatype RetentionConfig = RetentionConfig(retentionDays: nat, maxSizeMB: nat)

  /** What may go wrong in a pass: each statement on its own. */
  datatype Trouble = Trouble(ageFails: bool, statFails: bool, countFails: bool, sizeFails: bool)

  /** Nothing deleted is newer than anything kept. */
  ghost predicate OldestFirst(before: set<Entry>, after: set<Entry>) {
    after <= before && forall d, s :: d in before - after && s in after ==> d.ts <= s.ts
  }

  function Floor(x: real): int {
    x.Floor
  }

  /** The number of rows to delete, from the row count, the file's size and the target size. */
  function ToDrop(rowCount: int, size: int, target: int): int
    requires size != 0
  {
    var excess := (size - target) as real / size as real;
    var n := Floor(rowCount as real * excess * 1.1);
    if n < 1 then if 1 > rowCount then rowCount else 1
    else if n > rowCount then rowCount
    else n
  }

  class AuditDatabase {
    var rows: set<Entry>
    var vacuums: nat

    constructor (rows: set<Entry>)
      ensures this.rows == rows && vacuums == 0
    {
      this.rows, vacuums := rows, 0;
    }

    /** DELETE ... WHERE ts_unix_nano < cutoff. */
    method DeleteBefore(cutoff: int) returns (n: nat)
      modifies this`rows
      ensures rows == set e | e in old(rows) && e.ts >= cutoff
      ensures n == |old(rows)| - |rows|
    {
      var kept := set e | e in rows && e.ts >= cutoff;
      CardinalityOfSubset(kept, rows);
      n := |rows| - |kept|;
      rows := kept;
    }

    /** DELETE ... ORDER BY ts_unix_nano ASC LIMIT n; which of equally old rows go is open. */
    method DeleteOldest(n: nat) returns (deleted: nat)
      requires n <= |rows|
      modifies this`rows
      ensures OldestFirst(old(rows), rows) && |rows| == |old(rows)| - n && deleted == n
    {
      deleted := 0;
      while deleted < n
        invariant deleted <= n && |rows| == |old(rows)| - deleted
        invariant OldestFirst(old(rows), rows)
      {
        var oldest := Oldest(rows);
        rows := rows - {oldest};
        deleted := deleted + 1;
      }
    }

    /** One estimate, one DELETE. `size` is the file's size on disk, which no DELETE has changed yet. */
    method PruneBySize(cfg: RetentionConfig, size: nat, trouble: Trouble) returns (n: nat)
      modifies this`rows
      ensures OldestFirst(old(rows), rows) && n == |old(rows)| - |rows|
      ensures
        var target := cfg.maxSizeMB * BYTES_PER_MB;
        if trouble.statFails || trouble.countFails || trouble.sizeFails || size <= target || old(rows) == {}
        then n == 0
        else n == ToDrop(|old(rows)|, size, target) && 1 <= n <= |old(rows)|
    {
      var target := cfg.maxSizeMB * BYTES_PER_MB;
      if trouble.statFails || size <= target || trouble.countFails {
        return 0;
      }
      var rowCount := |rows|;
      if rowCount == 0 {
        return 0;
      }
      var excess := (size - target) as real / size as real;
      var toDrop := Floor(rowCount as real * excess * 1.1);
      if toDrop < 1 {
        toDrop := 1;
      }
      if toDrop > rowCount {
        toDrop := rowCount;
      }
      if trouble.sizeFails {
        return 0;
      }
      n := DeleteOldest(toDrop);
    }

    /** A whole pass. The age prune leaves `aged`; if the file is over its limit then and no statement fails, the
        size prune brings it near the limit, oldest rows first, and otherwise it takes nothing. It vacuums
        exactly when something was deleted. */
    method RunRetention(cfg: RetentionConfig, now: int, size: nat, trouble: Trouble) returns (ghost aged: set<Entry>)
      modifies this
      ensures OldestFirst(old(rows), rows)
      ensures aged == if cfg.retentionDays == 0 || trouble.ageFails then old(rows)
                      else set e | e in old(rows) && e.ts >= now - cfg.retentionDays * 86_400_000_000_000
      ensures
        var target := cfg.maxSizeMB * 1_048_576;
        if cfg.maxSizeMB > 0 && size > target && aged != {}
           && !trouble.statFails && !trouble.countFails && !trouble.sizeFails
        then OldestFirst(aged, rows) && 1 <= |aged| - |rows| <= |aged|
             && LandsNear(|aged|, size, target, |aged| - |rows|)
        else rows == aged
      ensures vacuums == old(vacuums) + if rows != old(rows) then 1 else 0
      ensures cfg.retentionDays > 0 && !trouble.ageFails ==>
                forall e :: e in rows ==> e.ts >= now - cfg.retentionDays * NANOS_PER_DAY
      ensures cfg.maxSizeMB == 0 ==> forall e :: e in old(rows) && e !in rows ==>
                cfg.retentionDays > 0 && e.ts < now - cfg.retentionDays * NANOS_PER_DAY
    {
      var pruned := false;
      if cfg.retentionDays > 0 {
        var cutoff := now - cfg.retentionDays * NANOS_PER_DAY;
        if !trouble.ageFails {
          var n := DeleteBefore(cutoff);
          if n > 0 {
            pruned := true;
          }
        }
      }
      aged := rows;
      SubsetsDifferInSize(aged, old(rows));
      if cfg.maxSizeMB > 0 {
        var n := PruneBySize(cfg, size, trouble);
        if n > 0 {
          pruned := true;
          EstimateLandsNear(|aged|, size, cfg.maxSizeMB * BYTES_PER_MB);
        }
      }
      SubsetsDifferInSize(rows, aged);
      if pruned {
        vacuums := vacuums + 1;
      }
    }
  }

  /** If every row takes the same space, what is left after deleting `drop` rows is above the target by less than
      a row, not at all once a tenth of the excess is worth a row, and, unless a single row went, short of it by
      at most a tenth of the excess. */
  predicate LandsNear(rowCount: int, size: int, target: int, drop: int)
    requires rowCount > 0
  {
    var left := size as real * (rowCount as real - drop as real) / rowCount as real;
    && left < target as real + size as real / rowCount as real
    && (rowCount * (size - target) >= 10 * size ==> left <= target as real)
    && (drop == 1 || left >= target as real - (size as real - target as real) / 10.0)
  }

  lemma EstimateLandsNear(rowCount: int, size: int, target: int)
    requires rowCount > 0 && 0 <= target < size
    ensures LandsNear(rowCount, size, target, ToDrop(rowCount, size, target))
  {
    PruneLandsNearTarget(rowCount, size, target);
    PruneKeepsEnough(rowCount, size, target);
  }

  lemma SubsetsDifferInSize<T>(a: set<T>, b: set<T>)
    requires a <= b
    ensures |a| <= |b| && (|a| == |b| <==> a == b)
  {
    assert b == a + (b - a);
  }

  method Oldest(rows: set<Entry>) returns (e: Entry)
    requires rows != {}
    ensures e in rows && forall x :: x in rows ==> e.ts <= x.ts
  {
    e :| e in rows;
    var rest := rows - {e};
    while rest != {}
      invariant rest <= rows && e in rows
      invariant forall x :: x in rows - rest ==> e.ts <= x.ts
      decreases rest
    {
      var x :| x in rest;
      if x.ts < e.ts {
        e := x;
      }
      rest := rest - {x};
    }
  }

  // How good the estimate is.

  lemma ToDropBounds(rowCount: int, size: int, target: int)
    requires rowCount > 0 && 0 <= target < size
    ensures 1 <= ToDrop(rowCount, size, target) <= rowCount
  {
  }

  /** The size after VACUUM if every row takes the same space. */
  function Remaining(rowCount: int, size: int, dropped: int): real
    requires rowCount > 0
  {
    size as real * (rowCount as real - dropped as real) / rowCount as real
  }

  lemma Divide(a: real, n: real, k: real)
    requires n > 0.0
    ensures a < k * n ==> a / n < k
    ensures a <= k * n ==> a / n <= k
  {
    var q := a / n;
    assert q * n == a;
    assert q >= k ==> q * n >= k * n;
    assert q > k ==> q * n > k * n;
  }

  /** Scaled by the size, the estimate before the headroom is the row count times the excess bytes. */
  lemma EstimateScaled(n: real, s: real, t: real)
    requires s > 0.0
    ensures n * ((s - t) / s) * s == n * (s - t)
  {
    assert (s - t) / s * s == s - t;
  }

  lemma UnlessCapped(rowCount: int, size: int, target: int)
    requires rowCount > 0 && 0 <= target < size
    ensures
      var x := rowCount as real * ((size - target) as real / size as real);
      var d := ToDrop(rowCount, size, target);
      d == rowCount || (d as real > x * 1.1 - 1.0 && x > 0.0)
  {
    var e := (size - target) as real / size as real;
    assert e > 0.0;
    assert rowCount as real * e > 0.0;
  }

  lemma Distribute(a: real, b: real, c: real)
    ensures (a - b) * c == a * c - b * c
    ensures c * (a - b) == c * a - c * b
  {
  }

  lemma Positive(a: real, b: real)
    requires b > 0.0
    ensures a > 0.0 ==> a * b > 0.0
    ensures a >= 0.0 ==> a * b >= 0.0
  {
  }

  lemma WithinOneRow(n: real, s: real, t: real, d: real, x: real)
    requires s > 0.0 && x * s == n * (s - t) && d > x - 1.0
    ensures s * (n - d) < t * n + s
  {
    Positive(d - x + 1.0, s);
    assert (d - x + 1.0) * s == (d - x) * s + s;
    Scaled(n, s, t, d, x);
  }

  lemma AtOrUnder(n: real, s: real, t: real, d: real, x: real)
    requires s > 0.0 && x * s == n * (s - t) && d >= x
    ensures s * (n - d) <= t * n
  {
    Positive(d - x, s);
    Scaled(n, s, t, d, x);
  }

  lemma Scaled(n: real, s: real, t: real, d: real, x: real)
    requires x * s == n * (s - t)
    ensures s * (n - d) == t * n - (d - x) * s
  {
    Distribute(d, x, s);
    Distribute(n, d, s);
    Distribute(s, t, n);
  }

  lemma HeadroomCovers(s: real, x: real)
    requires s > 0.0 && x * s >= 10.0 * s
    ensures x >= 10.0
  {
    assert x < 10.0 ==> (10.0 - x) * s > 0.0;
  }

  lemma OneRowOver(n: real, s: real, t: real)
    requires n > 0.0
    ensures (t + s / n) * n == t * n + s
  {
    var row := s / n;
    assert row * n == s;
    assert (t + row) * n == t * n + row * n;
  }

  lemma ProductAsReal(a: int, b: int)
    ensures (a * b) as real == a as real * b as real
  {
  }

  lemma HeadroomAsReal(rowCount: int, size: int, target: int)
    ensures rowCount * (size - target) >= 10 * size
            ==> rowCount as real * (size as real - target as real) >= 10.0 * size as real
  {
    ProductAsReal(rowCount, size - target);
  }

  lemma LandsWithinRow(n: real, s: real, t: real, d: real, x: real)
    requires n > 0.0 && s > 0.0 && t >= 0.0
    requires x * s == n * (s - t)
    requires d == n || (d > x * 1.1 - 1.0 && x > 0.0)
    ensures s * (n - d) / n < t + s / n
  {
    if d == n {
      assert n - d == 0.0 && s / n > 0.0;
    } else {
      WithinOneRow(n, s, t, d, x);
      OneRowOver(n, s, t);
      Divide(s * (n - d), n, t + s / n);
    }
  }

  lemma LandsUnder(n: real, s: real, t: real, d: real, x: real)
    requires n > 0.0 && s > 0.0 && t >= 0.0
    requires x * s == n * (s - t) && n * (s - t) >= 10.0 * s
    requires d == n || (d > x * 1.1 - 1.0 && x > 0.0)
    ensures s * (n - d) / n <= t
  {
    if d == n {
      assert n - d == 0.0;
    } else {
      HeadroomCovers(s, x);
      AtOrUnder(n, s, t, d, x);
      Divide(s * (n - d), n, t);
    }
  }

  /** What is known of the estimate: it is near `x`, the excess in rows. */
  ghost predicate NearExcess(rowCount: int, size: int, target: int, drop: int, x: real) {
    && x * size as real == rowCount as real * (size as real - target as real)
    && (drop == rowCount || (drop as real > x * 1.1 - 1.0 && x > 0.0))
  }

  lemma EstimateIsNearExcess(rowCount: int, size: int, target: int) returns (x: real)
    requires rowCount > 0 && 0 <= target < size
    ensures NearExcess(rowCount, size, target, ToDrop(rowCount, size, target), x)
  {
    x := rowCount as real * ((size - target) as real / size as real);
    UnlessCapped(rowCount, size, target);
    EstimateScaled(rowCount as real, size as real, target as real);
  }

  lemma NearExcessLandsWithinRow(rowCount: int, size: int, target: int, drop: int, x: real)
    requires rowCount > 0 && 0 <= target < size && NearExcess(rowCount, size, target, drop, x)
    ensures Remaining(rowCount, size, drop) < target as real + size as real / rowCount as real
  {
    LandsWithinRow(rowCount as real, size as real, target as real, drop as real, x);
  }

  lemma NearExcessLandsUnder(rowCount: int, size: int, target: int, drop: int, x: real)
    requires rowCount > 0 && 0 <= target < size && NearExcess(rowCount, size, target, drop, x)
    requires rowCount as real * (size as real - target as real) >= 10.0 * size as real
    ensures Remaining(rowCount, size, drop) <= target as real
  {
    LandsUnder(rowCount as real, size as real, target as real, drop as real, x);
  }

  /** Deleting the estimated rows leaves less than one average row above the target, and nothing
      above it once a tenth of the excess is worth a row. */
  lemma PruneLandsNearTarget(rowCount: int, size: int, target: int)
    requires rowCount > 0 && 0 <= target < size
    ensures
      var left := Remaining(rowCount, size, ToDrop(rowCount, size, target));
      && left < target as real + size as real / rowCount as real
      && (rowCount * (size - target) >= 10 * size ==> left <= target as real)
  {
    var x := EstimateIsNearExcess(rowCount, size, target);
    NearExcessLandsWithinRow(rowCount, size, target, ToDrop(rowCount, size, target), x);
    if rowCount * (size - target) >= 10 * size {
      HeadroomAsReal(rowCount, size, target);
      NearExcessLandsUnder(rowCount, size, target, ToDrop(rowCount, size, target), x);
    }
  }

  lemma StaysNear(n: real, s: real, t: real, d: real, x: real)
    requires n > 0.0 && s > 0.0 && x * s == n * (s - t) && d <= x * 1.1
    ensures s * (n - d) / n >= t - (s - t) / 10.0
  {
    Positive(x * 1.1 - d, s);
    assert (x * 1.1 - d) * s == (x * s) * 1.1 - d * s;
    Distribute(n, d, s);
    var k := t - (s - t) / 10.0;
    assert n * (s - t) * 1.1 == n * s - n * k;
    AtLeast(s * (n - d), n, k);
  }

  lemma AtLeast(a: real, n: real, k: real)
    requires n > 0.0 && a >= n * k
    ensures a / n >= k
  {
    var q := a / n;
    assert q * n == a;
    assert q < k ==> n * (k - q) > 0.0;
  }

  lemma AtMostTheHeadroom(rowCount: int, size: int, target: int)
    requires rowCount > 0 && 0 <= target < size
    ensures
      var x := rowCount as real * ((size - target) as real / size as real);
      var d := ToDrop(rowCount, size, target);
      d == 1 || d as real <= x * 1.1
  {
  }

  /** ... and it does not delete too much: unless it deletes a single row, what is left is short of the
      target by at most a tenth of the excess. */
  lemma PruneKeepsEnough(rowCount: int, size: int, target: int)
    requires rowCount > 0 && 0 <= target < size
    ensures
      var drop := ToDrop(rowCount, size, target);
      drop == 1 || Remaining(rowCount, size, drop) >= target as real - (size as real - target as real) / 10.0
  {
    var drop := ToDrop(rowCount, size, target);
    AtMostTheHeadroom(rowCount, size, target);
    if drop != 1 {
      EstimateScaled(rowCount as real, size as real, target as real);
      StaysNear(rowCount as real, size as real, target as real, drop as real,
                rowCount as real * ((size - target) as real / size as real));
    }
  }
}
