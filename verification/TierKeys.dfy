/** Time and key arithmetic of the traffic history's rollups. */
module TierKeys {

  const HOUR := 3_600_000
  const DAY := 86_400_000
  const WEEK := 604_800_000
  const MAX64 := 0x7FFF_FFFF_FFFF_FFFF
  const MIN64 := -0x8000_0000_0000_0000

  // ---- The 64-bit arithmetic of the bucket keys ----

  function Wrap64(x: int): int {
    (x + 0x8000_0000_0000_0000) % 0x1_0000_0000_0000_0000 - 0x8000_0000_0000_0000
  }

  /** Integer division of the program: towards zero. */
  function Trunc(a: int, b: int): int
    requires b > 0
  {
    if a >= 0 then a / b else -(-a / b)
  }

  function Align(ts: int, period: int): int
    requires period > 0
  {
    Trunc(ts, period) * period
  }

  function PackedKey(aligned: int, index: int): int {
    Wrap64(Wrap64(aligned * 100_000) + index)
  }

  datatype Tier = Raw | Hourly | Daily | Weekly

  function Period(t: Tier): int {
    match t case Raw => 1 case Hourly => HOUR case Daily => DAY case Weekly => WEEK
  }

  function Finer(t: Tier): Tier {
    match t case Raw => Raw case Hourly => Raw case Daily => Hourly case Weekly => Daily
  }

  lemma MultipleAtLeast(b: int, d: int)
    requires b > 0 && d > 0
    ensures b * d >= b
  {}

  lemma QuotientIs(a: int, b: int, q: int, r: int)
    requires b > 0 && a == b * q + r && 0 <= r < b
    ensures a / b == q && a % b == r
  {
    var d := a / b - q;
    assert b * d == b * (a / b) - b * q == r - a % b;
    if d > 0 { MultipleAtLeast(b, d); }
    if d < 0 { MultipleAtLeast(b, -d); }
  }

  /** Truncation is nested: aligning to a tier and then to the next is aligning to the next. */
  lemma AlignNested(ts: int, t: Tier)
    ensures Align(Align(ts, Period(Finer(t))), Period(t)) == Align(ts, Period(t))
  {
    match t
    case Raw => TruncNested(ts, 1, 1, 1);
    case Hourly => TruncNested(ts, 1, HOUR, HOUR);
    case Daily => TruncNested(ts, HOUR, 24, DAY);
    case Weekly => TruncNested(ts, DAY, 7, WEEK);
  }

  lemma TruncNested(ts: int, p: int, k: int, pk: int)
    requires p > 0 && k > 0 && pk == p * k
    ensures Trunc(Trunc(ts, p) * p, pk) == Trunc(ts, pk)
  {
    var n := if ts >= 0 then ts else -ts;
    Nested(n, p, k, pk);
    QuotientTimes(n, p);
    var m := n / p * p;
    assert Trunc(ts, p) * p == if ts >= 0 then m else -m by {
      assert -(n / p) * p == -m;
    }
    assert m == 0 ==> Trunc(-m, pk) == 0 == -(m / pk);
  }

  lemma Nested(n: nat, p: int, k: int, pk: int)
    requires p > 0 && k > 0 && pk == p * k
    ensures (n / p * p) / pk == n / pk
  {
    var q, r := n / pk, n % pk;
    var h := r / p;
    assert pk * q == p * (k * q);
    QuotientIs(n, p, k * q + h, r % p) by {
      assert p * (k * q + h) == p * (k * q) + p * h;
    }
    assert (k * q + h) * p == pk * q + h * p;
    assert 0 <= h * p <= r < pk by { QuotientTimes(r, p); }
    QuotientIs((k * q + h) * p, pk, q, h * p);
  }

  lemma QuotientTimes(r: nat, p: int)
    requires p > 0
    ensures 0 <= r / p * p <= r
  {
    assert r / p >= 0;
  }

  /** For times from 1970 on this is the start of the hour, day or week; before, it is the
      end. */
  lemma AlignIsFloor(ts: int, period: int)
    requires period > 0
    ensures Align(ts, period) % period == 0
    ensures ts >= 0 ==> Align(ts, period) <= ts < Align(ts, period) + period
    ensures ts < 0 ==> Align(ts, period) - period < ts <= Align(ts, period)
  {
    QuotientIs(Trunc(ts, period) * period, period, Trunc(ts, period), 0);
  }

  // ---- The bucket keys ----

  /** The bounds within which a key does not wrap. */
  const MAX_MILLIS := 92_233_720_000_000   // in the year 4892
  const MAX_NODES := 36_854_775_807

  lemma AlignHours(ts: int, t: Tier) returns (hours: int)
    requires t != Raw
    ensures Align(ts, Period(t)) == HOUR * hours
    ensures if ts >= 0 then 0 <= HOUR * hours <= ts else ts <= HOUR * hours <= 0
  {
    hours := if t == Daily then 24 * Trunc(ts, DAY) else if t == Weekly then 168 * Trunc(ts, WEEK) else Trunc(ts, HOUR);
  }

  lemma Unwrap(x: int) returns (turns: int)
    ensures Wrap64(x) == x + turns * 0x1_0000_0000_0000_0000
    ensures MIN64 <= x <= MAX64 ==> turns == 0
  {
    turns := -((x + 0x8000_0000_0000_0000) / 0x1_0000_0000_0000_0000);
  }

  lemma UnwrapKey(aligned: int, index: int) returns (turns: int)
    ensures PackedKey(aligned, index) == aligned * 100_000 + index + turns * 0x1_0000_0000_0000_0000
    ensures MIN64 <= aligned * 100_000 <= MAX64 && MIN64 <= aligned * 100_000 + index <= MAX64 ==> turns == 0
  {
    var m := Unwrap(aligned * 100_000);
    var n := Unwrap(Wrap64(aligned * 100_000) + index);
    turns := m + n;
  }

  lemma BoundedHours(h1: int, i1: int, h2: int, i2: int)
    requires -MAX_MILLIS <= HOUR * h1 <= MAX_MILLIS && -MAX_MILLIS <= HOUR * h2 <= MAX_MILLIS
    requires 1 <= i1 <= MAX_NODES && 1 <= i2 <= MAX_NODES
    requires PackedKey(HOUR * h1, i1) == PackedKey(HOUR * h2, i2)
    ensures i1 == i2 && h1 == h2
  {
    var t1 := UnwrapKey(HOUR * h1, i1);
    var t2 := UnwrapKey(HOUR * h2, i2);
    assert MIN64 <= HOUR * h1 * 100_000 <= MAX64 && MIN64 <= HOUR * h2 * 100_000 <= MAX64;
    assert t1 == 0 && t2 == 0;
    CloseHours(h1 - h2, i2 - i1);
  }

  lemma CloseHours(d: int, i: int)
    requires d * 360_000_000_000 == i && -MAX_NODES < i < MAX_NODES
    ensures d == 0 && i == 0
  {}

  lemma FewHours(h1: int, i1: int, h2: int, i2: int)
    requires MIN64 <= HOUR * h1 <= MAX64 && MIN64 <= HOUR * h2 <= MAX64
    requires 1 <= i1 < 4096 && 1 <= i2 < 4096
    requires PackedKey(HOUR * h1, i1) == PackedKey(HOUR * h2, i2)
    ensures i1 == i2 && h1 == h2
  {
    var t1 := UnwrapKey(HOUR * h1, i1);
    var t2 := UnwrapKey(HOUR * h2, i2);
    OddMultiples(h1 - h2, i1 - i2, t2 - t1);
  }

  /** 100000 hours are an odd multiple of 4096 milliseconds. */
  lemma OddMultiples(d: int, i: int, m: int)
    requires d * 360_000_000_000 + i == m * 0x1_0000_0000_0000_0000
    requires -4096 < i < 4096 && -0x10_0000_0000_0000 < d < 0x10_0000_0000_0000
    ensures d == 0 && i == 0
  {
    assert i == 4096 * (m * 0x10_0000_0000_0000 - d * 87890625);
    assert m * 0x10_0000_0000_0000 == d * 87890625;
    // 2750984413672769 inverts 87890625 modulo 2 to the 52.
    assert d == (2750984413672769 * m - 53687219 * d) * 0x10_0000_0000_0000;
  }

  /** Within the bounds a key tells time and node apart. */
  lemma BoundedKeysInjective(t: Tier, ts1: int, i1: int, ts2: int, i2: int)
    requires t != Raw && -MAX_MILLIS <= ts1 <= MAX_MILLIS && -MAX_MILLIS <= ts2 <= MAX_MILLIS
    requires 1 <= i1 <= MAX_NODES && 1 <= i2 <= MAX_NODES
    requires PackedKey(Align(ts1, Period(t)), i1) == PackedKey(Align(ts2, Period(t)), i2)
    ensures i1 == i2 && Align(ts1, Period(t)) == Align(ts2, Period(t))
  {
    var h1 := AlignHours(ts1, t);
    var h2 := AlignHours(ts2, t);
    BoundedHours(h1, i1, h2, i2);
  }

  /** Below 4096 nodes no bound on the time is needed: even where keys wrap they stay
      injective on all 64-bit times. */
  lemma FewNodesNeverCollide(t: Tier, ts1: int, i1: int, ts2: int, i2: int)
    requires t != Raw && MIN64 <= ts1 <= MAX64 && MIN64 <= ts2 <= MAX64
    requires 1 <= i1 < 4096 && 1 <= i2 < 4096
    requires PackedKey(Align(ts1, Period(t)), i1) == PackedKey(Align(ts2, Period(t)), i2)
    ensures i1 == i2 && Align(ts1, Period(t)) == Align(ts2, Period(t))
  {
    var h1 := AlignHours(ts1, t);
    var h2 := AlignHours(ts2, t);
    FewHours(h1, i1, h2, i2);
  }

  /** Beyond both bounds rows of two nodes can share a bucket. */
  lemma ManyNodesCanCollide()
    ensures PackedKey(Align(1741090815302 * HOUR, HOUR), 1) == PackedKey(Align(-1741090815301 * HOUR, HOUR), 831489)
    ensures MIN64 <= -1741090815301 * HOUR && 1741090815302 * HOUR <= MAX64
  {
    var a, b := 1741090815302 * HOUR, -1741090815301 * HOUR;
    assert Align(a, HOUR) == a && Align(b, HOUR) == b;
    SamePacked(a, 1, b, 831489, 67957);
  }

  lemma SamePacked(x: int, i: int, y: int, j: int, turns: int)
    requires x * 100_000 + i == y * 100_000 + j + turns * 0x1_0000_0000_0000_0000
    ensures PackedKey(x, i) == PackedKey(y, j)
  {
    var t1 := UnwrapKey(x, i);
    var t2 := UnwrapKey(y, j);
    SameTurn(PackedKey(x, i), PackedKey(y, j), turns + t1 - t2);
  }

  lemma SameTurn(a: int, b: int, turns: int)
    requires MIN64 <= a <= MAX64 && MIN64 <= b <= MAX64 && a == b + turns * 0x1_0000_0000_0000_0000
    ensures a == b
  {}
}
