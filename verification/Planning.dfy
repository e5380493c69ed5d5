// Planned points, retry delays and multipart sections: the loops over 64-bit
// durations and sizes (internal/agent/config.go, scenarios.go, s3_worker.go, s3_client.go).
module Planning {
  const MAX := 0x7fff_ffff_ffff_ffff
  newtype int64 = x: int | -0x8000_0000_0000_0000 <= x <= 0x7fff_ffff_ffff_ffff

  function Min(a: int, b: int): int { if a <= b then a else b }
  function Max(a: int, b: int): int { if a >= b then a else b }

  // The number of planned points of a window: one each step from zero, and the window itself.
  function Points(window: int, step: int): int
    requires window > 0 && step > 0
  {
    (window + step - 1) / step + 1
  }

  // A wrap-around 64-bit result.
  function Wrap(x: int): int {
    (x + 0x8000_0000_0000_0000) % 0x1_0000_0000_0000_0000 - 0x8000_0000_0000_0000
  }

  // Division that truncates toward zero.
  function Quot(a: int, b: int): int
    requires b > 0
  {
    if a >= 0 then a / b else -((-a) / b)
  }

  lemma Scaled(a: int, b: int, step: int)
    requires a <= b && step > 0
    ensures a * step <= b * step
  {
    assert b * step == a * step + (b - a) * step;
  }

  lemma StepsBelow(window: int, step: int, k: int)
    requires window > 0 && step > 0
    ensures (k * step < window) <==> k < Points(window, step) - 1
  {
    var sum := window + step - 1;
    var n := sum / step;
    assert sum == n * step + sum % step;
    assert (n - 1) * step == n * step - step;
    if k < n { Scaled(k, n - 1, step); } else { Scaled(n, k, step); }
  }

  // ---- Schedule ----

  method Schedule(window: int64, step: int64) returns (points: seq<int64>)
    ensures window <= 0 || step <= 0 ==> points == []
    ensures window > 0 && step > 0 ==> |points| == Points(window as int, step as int)
    ensures forall i :: 0 <= i < |points| ==> points[i] as int == Min(i * step as int, window as int)
  {
    if step <= 0 || window <= 0 { return []; }
    ghost var w, s := window as int, step as int;
    points := [0];
    var p := step;
    while p < window
      invariant |points| >= 1 && p as int == |points| * s
      invariant forall i :: 0 <= i < |points| ==> points[i] as int == i * s < w
      decreases w - p as int
    {
      points := points + [p];
      if window - p <= step { break; }
      p := p + step;
    }
    ghost var k := |points|;
    assert (k - 1) * s < w <= k * s by { assert (k - 1) * s + s == k * s; }
    StepsBelow(w, s, k - 1);
    StepsBelow(w, s, k);
    points := points + [window];
  }

  // The schedule rises strictly from zero to the window with gaps of at most one step.
  lemma ScheduleShape(window: int, step: int, points: seq<int>)
    requires window > 0 && step > 0 && |points| == Points(window, step)
    requires forall i :: 0 <= i < |points| ==> points[i] == Min(i * step, window)
    ensures |points| >= 2 && points[0] == 0 && points[|points| - 1] == window
    ensures forall i :: 0 < i < |points| ==> points[i - 1] < points[i] <= points[i - 1] + step
  {
    StepsBelow(window, step, 0);
    var n := |points|;
    StepsBelow(window, step, n - 1);
    assert points[n - 1] == Min((n - 1) * step, window);
    forall i | 0 < i < n ensures points[i - 1] < points[i] <= points[i - 1] + step {
      StepsBelow(window, step, i - 1);
      assert i * step == (i - 1) * step + step;
    }
  }

  // ---- the count admission checks ----

  datatype Limits = Limits(maxWindow: int64, minStep: int64, maxPoints: int64)

  const SECOND: int64 := 1_000_000_000

  // The count n of validateSampling; every operation stays within 64 bits.
  method CountPoints(window: int64, step: int64) returns (n: int64)
    requires window > 0 && step >= SECOND
    ensures n as int == Points(window as int, step as int)
  {
    n := window / step + 1;
    ghost var w, s := window as int, step as int;
    ghost var q := w / s;
    assert w == q * s + w % s;
    StepsBelow(w, s, q);
    StepsBelow(w, s, q + 1);
    StepsBelow(w, s, q - 1);
    assert (q - 1) * s == q * s - s && (q + 1) * s == q * s + s;
    if window % step != 0 { n := n + 1; }
  }

  predicate Sampleable(c: Limits, window: int64, step: int64) {
    && 0 < window <= c.maxWindow && 0 < step <= window && c.minStep <= step
    && window % SECOND == 0 && step % SECOND == 0
    && Points(window as int, step as int) <= c.maxPoints as int
  }

  method ValidateSampling(c: Limits, window: int64, step: int64) returns (ok: bool)
    ensures ok <==> Sampleable(c, window, step)
    ensures ok <==>
      && 0 < window <= c.maxWindow && 0 < step <= window && c.minStep <= step
      && window % 1_000_000_000 == 0 && step % 1_000_000_000 == 0
      && (window as int + step as int - 1) / step as int + 1 <= c.maxPoints as int
  {
    if window <= 0 || step <= 0 || window > c.maxWindow || step < c.minStep || step > window
       || window % SECOND != 0 || step % SECOND != 0 {
      return false;
    }
    var n := CountPoints(window, step);
    return n <= c.maxPoints;
  }

  // ---- the count passed to atop ----

  // WindowSpec.args: window+step-1 is computed in 64 bits and may wrap around.
  function FrameCount(window: int, step: int): int
    requires step > 0
  {
    Wrap(Quot(Wrap(Wrap(window + step) - 1), step) + 1)
  }

  lemma WrapId(x: int)
    ensures -0x8000_0000_0000_0000 <= x <= MAX ==> Wrap(x) == x
    ensures MAX < x <= 2 * MAX + 1 ==> Wrap(x) == x - 0x1_0000_0000_0000_0000
    ensures Wrap(-0x8000_0000_0000_0000 - 1) == MAX
  {}

  // The three computations agree exactly when neither that sum nor the count leaves 64 bits.
  lemma FrameCountAgrees(window: int, step: int)
    requires 0 < window <= MAX && 0 < step <= MAX
    ensures FrameCount(window, step) == Points(window, step) <==>
      window + step - 1 <= MAX && Points(window, step) <= MAX
  {
    var sum := window + step - 1;
    var n := Points(window, step);
    StepsBelow(window, step, 0);
    WrapId(window + step);
    assert Wrap(Wrap(window + step) - 1) == Wrap(sum) by { WrapId(sum); WrapId(Wrap(window + step) - 1); }
    WrapId(sum);
    if sum <= MAX {
      assert 0 <= sum / step <= sum by { Shrinks(sum, step); }
      WrapId(n);
    } else {
      var d := -(sum - 0x1_0000_0000_0000_0000);
      assert 0 <= d / step <= d by { Shrinks(d, step); }
      WrapId(-(d / step) + 1);
      assert FrameCount(window, step) <= 1;
    }
  }

  // An admissible window of one huge step: two points are planned, atop is told one.
  lemma FrameCountShort() returns (c: Limits, window: int64, step: int64)
    ensures Sampleable(c, window, step) && Points(window as int, step as int) == 2 &&
      FrameCount(window as int, step as int) == 1
  {
    window, step := 9_223_372_036_000_000_000, 9_223_372_036_000_000_000;
    c := Limits(window, SECOND, 2);
    WrapId(window as int + step as int);
  }

  lemma Product(a: int, b: int)
    requires 0 <= a && 0 < b
    ensures a <= a * b
  {
    assert a * b == a * (b - 1) + a;
  }

  lemma NegativeProduct(a: int, b: int)
    requires a < 0 < b
    ensures a * b <= -b
  {
    Product(-a - 1, b);
    assert (-a - 1) * b == -(a * b) - b;
  }

  lemma Shrinks(x: int, step: int)
    requires x >= 0 && step > 0
    ensures 0 <= x / step <= x
  {
    var q := x / step;
    assert x == q * step + x % step;
    if q < 0 { NegativeProduct(q, step); assert false; }
    Product(q, step);
  }

  // ---- retry delay ----

  function Pow2(n: nat): (p: nat)
    ensures p >= 1
  {
    if n == 0 then 1 else 2 * Pow2(n - 1)
  }

  lemma Pow2Monotone(m: nat, n: nat)
    requires m <= n
    ensures Pow2(m) <= Pow2(n)
    decreases n
  {
    if m < n { Pow2Monotone(m, n - 1); }
  }

  // Exponential from the initial delay, capped.
  function Delay(initial: int, limit: int, attempts: int): int {
    Min(limit, initial * Pow2(if attempts <= 1 then 0 else attempts - 1))
  }

  lemma StaysAbove(initial: int, limit: int, n: nat, m: nat)
    requires 0 < initial && n <= m && limit <= initial * Pow2(n)
    ensures limit <= initial * Pow2(m)
  {
    Pow2Monotone(n, m);
    Scaled(Pow2(n), Pow2(m), initial);
  }

  lemma Doubles(initial: int, n: nat)
    ensures initial * Pow2(n + 1) == 2 * (initial * Pow2(n))
  {}

  // The loop of retryTransfer: no step overflows.
  method RetryDelay(initial: int64, limit: int64, attempts: int) returns (delay: int64)
    requires 0 < initial <= limit
    ensures delay as int == Delay(initial as int, limit as int, attempts)
  {
    delay := initial;
    var n := 1;
    ghost var i, l := initial as int, limit as int;
    assert i * Pow2(0) == i;
    while n < attempts && delay < limit
      invariant 1 <= n && (n <= attempts || n == 1)
      invariant delay as int == i * Pow2(n - 1) <= l
      decreases attempts - n
    {
      Doubles(i, n - 1);
      if delay > limit / 2 {
        StaysAbove(i, l, n, attempts - 1);
        return limit;
      }
      delay := delay * 2;
      n := n + 1;
    }
    if n < attempts { StaysAbove(i, l, n - 1, attempts - 1); }
    delay := if delay <= limit then delay else limit;
  }

  // The jittered wait: half the delay and a random part below the other half, at least one unit.
  function Jittered(delay: int, random: int): int { delay / 2 + random }

  // `random` is below max(1, delay - delay/2), as rand.Int64N returns it.
  lemma JitterBounds(delay: int, random: int)
    requires delay > 0 && 0 <= random < Max(1, delay - delay / 2)
    ensures delay / 2 <= Jittered(delay, random) < delay
  {}

  lemma DelayMonotone(initial: int, limit: int, a: int, b: int)
    requires 0 < initial <= limit && a <= b
    ensures 0 < Delay(initial, limit, a) <= Delay(initial, limit, b) <= limit
  {
    var m, n := if a <= 1 then 0 else a - 1, if b <= 1 then 0 else b - 1;
    Pow2Monotone(m, n);
    assert initial * Pow2(m) <= initial * Pow2(n);
    assert initial * 1 <= initial * Pow2(m);
  }

  // The first attempt waits the initial delay, every later one twice as long up to the limit.
  lemma DelayDoubles(initial: int, limit: int, attempts: int)
    requires 0 < initial <= limit
    ensures attempts <= 1 ==> Delay(initial, limit, attempts) == initial
    ensures attempts >= 1 ==> Delay(initial, limit, attempts + 1) == Min(limit, 2 * Delay(initial, limit, attempts))
  {
    assert initial * Pow2(0) == initial;
    if attempts >= 1 { Doubles(initial, attempts - 1); }
    DelayMonotone(initial, limit, attempts, attempts);
  }

  // ---- multipart sections ----

  const PART_SIZE := 8388608
  const MAX_PART := 5368709120
  const MULTIPART_THRESHOLD := 67108864

  datatype Section = Section(number: int, offset: int, size: int)

  // Part size as computed in 64 bits.
  function PartSize(size: int): int { Max(PART_SIZE, Quot(Wrap(size + 9999), 10000)) }

  // The sections are numbered from one, lie end to end from the start of the file,
  // and all but the last have the full part size.
  ghost predicate EndToEnd(parts: seq<Section>, part: int, size: int) {
    forall i :: 0 <= i < |parts| ==>
      && parts[i].number == i + 1 && parts[i].offset == i * part
      && parts[i].size == Min(part, size - i * part) && parts[i].size > 0
  }

  // The offset loop of Put over a file whose part size passed the 5 GiB check.
  method Sections(size: int64) returns (parts: seq<Section>)
    requires MULTIPART_THRESHOLD < size as int <= MAX - 9999 && PartSize(size as int) <= MAX_PART
    ensures EndToEnd(parts, PartSize(size as int), size as int)
    ensures |parts| == (size as int + PartSize(size as int) - 1) / PartSize(size as int) <= 10000
  {
    ghost var n := size as int;
    WrapId(n + 9999);
    var q := (size + 9999) / 10000;
    var part: int64 := if PART_SIZE as int64 >= q then PART_SIZE as int64 else q;
    ghost var p := part as int;
    assert p == PartSize(n);
    parts := [];
    var offset: int64 := 0;
    while offset < size
      invariant 0 <= offset as int == |parts| * p
      invariant |parts| > 0 ==> (|parts| - 1) * p < n
      invariant EndToEnd(parts, p, n)
      decreases n - offset as int
    {
      var left := size - offset;
      parts := parts + [Section(|parts| + 1, offset as int, if part <= left then part as int else left as int)];
      assert |parts| * p == (|parts| - 1) * p + p;
      if offset as int + part as int > MAX { assert false; }
      offset := offset + part;
    }
    StepsBelow(n, p, |parts| - 1);
    StepsBelow(n, p, |parts|);
    SectionLimit(n);
  }

  // Where the loop stands after n turns, in 64 bits.
  function OffsetAt(part: int, n: nat): int {
    if n == 0 then 0 else Wrap(OffsetAt(part, n - 1) + part)
  }

  lemma {:induction false} OffsetGrows(part: int, n: nat)
    requires 0 < part && n * part <= MAX
    ensures OffsetAt(part, n) == n * part
  {
    if n > 0 {
      assert n * part == (n - 1) * part + part;
      OffsetGrows(part, n - 1);
      WrapId(n * part);
    }
  }

  lemma WrapMultiple(m: int) returns (n: int)
    ensures Wrap(m * PART_SIZE) == n * PART_SIZE && n <= 0xff_ffff_ffff
  {
    var k := (m * PART_SIZE + 0x8000_0000_0000_0000) / 0x1_0000_0000_0000_0000;
    n := m - k * 0x200_0000_0000;
  }

  // With parts of 8 MiB it is always a multiple of them, and below 2^63.
  lemma {:induction false} OffsetStaysBelow(n: nat) returns (m: int)
    ensures OffsetAt(PART_SIZE, n) == m * PART_SIZE && m <= 0xff_ffff_ffff
  {
    m := 0;
    if n > 0 {
      m := OffsetStaysBelow(n - 1);
      hide Wrap;
      assert m * PART_SIZE + PART_SIZE == (m + 1) * PART_SIZE;
      m := WrapMultiple(m + 1);
    }
  }

  // The offset loop ends exactly when the rounding sum stays within 64 bits; beyond that the
  // part size falls back to 8 MiB and the offset wraps around before it reaches the size.
  lemma OffsetLoopEndsIff(size: int)
    requires MULTIPART_THRESHOLD < size <= MAX && PartSize(size) <= MAX_PART
    ensures (exists n: nat :: OffsetAt(PartSize(size), n) >= size) <==> size <= MAX - 9999
  {
    var p := PartSize(size);
    WrapId(size + 9999);
    if size <= MAX - 9999 {
      var n := Points(size, p) - 1;
      StepsBelow(size, p, 0);
      StepsBelow(size, p, n);
      StepsBelow(size, p, n - 1);
      assert n * p == (n - 1) * p + p;
      assert size <= 10000 * p;
      OffsetGrows(p, n);
      assert OffsetAt(p, n) >= size;
    } else {
      assert p == PART_SIZE;
      forall n: nat ensures OffsetAt(p, n) < size { var m := OffsetStaysBelow(n); }
    }
  }

  // At most 10000 sections, for every size that passes the part check, exactly when the
  // rounding sum stays within 64 bits; beyond that the part size falls back to 8 MiB.
  lemma SectionLimit(size: int)
    requires MULTIPART_THRESHOLD < size <= MAX && PartSize(size) <= MAX_PART
    ensures (size + PartSize(size) - 1) / PartSize(size) <= 10000 <==> size <= MAX - 9999
  {
    var p := PartSize(size);
    WrapId(size + 9999);
    StepsBelow(size, p, 10000);
    if size <= MAX - 9999 {
      assert 10000 * p >= size by { assert size + 9999 == 10000 * ((size + 9999) / 10000) + (size + 9999) % 10000; }
    } else {
      assert p == PART_SIZE;
    }
  }

  // Parts are as small as they may be: at least 8 MiB, and no more than 10000 of them.
  lemma PartSizeLeast(size: int, part: int)
    requires 0 <= size <= MAX - 9999
    ensures 8388608 <= PartSize(size) && size <= 10000 * PartSize(size)
    ensures 8388608 <= part && size <= 10000 * part ==> PartSize(size) <= part
  {
    WrapId(size + 9999);
    var q := (size + 9999) / 10000;
    assert size + 9999 == 10000 * q + (size + 9999) % 10000;
  }

  function Cut<T>(file: seq<T>, s: Section): seq<T>
    requires 0 <= s.offset <= s.offset + s.size <= |file|
  {
    file[s.offset..s.offset + s.size]
  }

  // What the parts carry, in order.
  function Carried<T>(file: seq<T>, parts: seq<Section>): seq<T>
    requires forall i :: 0 <= i < |parts| ==> 0 <= parts[i].offset <= parts[i].offset + parts[i].size <= |file|
  {
    if parts == [] then []
    else Carried(file, parts[..|parts| - 1]) + Cut(file, parts[|parts| - 1])
  }

  lemma SectionsInside(parts: seq<Section>, part: int, size: int)
    requires part > 0 && size >= 0 && EndToEnd(parts, part, size)
    ensures forall i :: 0 <= i < |parts| ==> 0 <= parts[i].offset <= parts[i].offset + parts[i].size <= size
    ensures forall i :: 0 <= i < |parts| - 1 ==> parts[i].size == part && parts[i].offset + part == parts[i + 1].offset
  {
    forall i | 0 <= i < |parts| ensures 0 <= parts[i].offset <= parts[i].offset + parts[i].size <= size {
      assert i * part >= 0;
    }
    forall i | 0 <= i < |parts| - 1 ensures parts[i].size == part && parts[i].offset + part == parts[i + 1].offset {
      assert parts[i + 1].size > 0;
      assert (i + 1) * part == i * part + part;
    }
  }

  lemma {:induction false} CarriedPrefix<T>(file: seq<T>, parts: seq<Section>, part: int)
    requires part > 0 && EndToEnd(parts, part, |file|)
    requires forall i :: 0 <= i < |parts| ==> 0 <= parts[i].offset <= parts[i].offset + parts[i].size <= |file|
    ensures parts == [] ==> Carried(file, parts) == []
    ensures parts != [] ==> var l := parts[|parts| - 1]; Carried(file, parts) == file[..l.offset + l.size]
  {
    if |parts| > 0 {
      var n := |parts| - 1;
      var init := parts[..n];
      CarriedPrefix(file, init, part);
      SectionsInside(parts, part, |file|);
      if n > 0 { assert parts[n].offset == init[n - 1].offset + init[n - 1].size; }
      else { assert parts[0].offset == 0 * part; }
      assert Carried(file, parts) == file[..parts[n].offset] + Cut(file, parts[n]);
    }
  }

  // Disjoint, gap-free, complete: the sections put back together are the file.
  lemma SectionsPartition<T>(file: seq<T>, parts: seq<Section>, part: int)
    requires 0 < part && 0 < |file| && EndToEnd(parts, part, |file|) && |parts| == (|file| + part - 1) / part
    ensures forall i :: 0 <= i < |parts| ==> 0 <= parts[i].offset <= parts[i].offset + parts[i].size <= |file|
    ensures Carried(file, parts) == file
    ensures forall i :: 0 <= i < |parts| - 1 ==> parts[i].size == part && parts[i].offset + part == parts[i + 1].offset
  {
    SectionsInside(parts, part, |file|);
    CarriedPrefix(file, parts, part);
    StepsBelow(|file|, part, 0);
    StepsBelow(|file|, part, |parts|);
    var n := |parts| - 1;
    assert (n + 1) * part == n * part + part;
    assert parts[n].offset + parts[n].size == |file|;
    assert file[..|file|] == file;
  }
}
