/** The store over whole runs of inserts and rollups: nothing is lost or counted twice,
    and every row speaks for its own samples. */
module History {
  import opened TierKeys
  import opened Rollup

  // ---- Conservation of one rollup ----

  /** The rows that fall into any of the given buckets. */
  function Covered(es: seq<Entry>, idx: Index, period: int, keys: seq<int>): seq<Entry>
    requires period > 0
  {
    if es == [] then []
    else
      var last := es[|es| - 1];
      Covered(es[..|es| - 1], idx, period, keys) + (if KeyOf(last, idx, period) in keys then [last] else [])
  }

  lemma LineageSnoc(es: seq<Entry>, e: Entry)
    ensures Lineage(es + [e]) == Lineage(es) + e.behind
  {
    assert (es + [e])[..|es|] == es;
  }

  lemma {:induction false} LineageConcat(a: seq<Entry>, b: seq<Entry>)
    ensures Lineage(a + b) == Lineage(a) + Lineage(b)
  {
    if b == [] {
      assert a + b == a;
    } else {
      var n := |b| - 1;
      assert (a + b)[..|a| + n] == a + b[..n];
      LineageConcat(a, b[..n]);
    }
  }

  lemma LineageOpt(es: seq<Entry>, e: Entry, take: bool)
    ensures Lineage(es + (if take then [e] else [])) == Lineage(es) + (if take then e.behind else multiset{})
  {
    if take { LineageSnoc(es, e); } else { assert es + [] == es; }
  }

  lemma CoveredSnoc(es: seq<Entry>, idx: Index, period: int, keys: seq<int>)
    requires period > 0 && es != []
    ensures var n := |es| - 1;
            Lineage(Covered(es, idx, period, keys))
            == Lineage(Covered(es[..n], idx, period, keys)) + if KeyOf(es[n], idx, period) in keys then es[n].behind else multiset{}
  {
    var n := |es| - 1;
    LineageOpt(Covered(es[..n], idx, period, keys), es[n], KeyOf(es[n], idx, period) in keys);
  }

  lemma GroupSnoc(es: seq<Entry>, idx: Index, period: int, k: int)
    requires period > 0 && es != []
    ensures var n := |es| - 1;
            Lineage(Group(es, idx, period, k))
            == Lineage(Group(es[..n], idx, period, k)) + if KeyOf(es[n], idx, period) == k then es[n].behind else multiset{}
  {
    var n := |es| - 1;
    LineageOpt(Group(es[..n], idx, period, k), es[n], KeyOf(es[n], idx, period) == k);
  }

  lemma {:induction false} CoveredOneMore(es: seq<Entry>, idx: Index, period: int, keys: seq<int>, k: int)
    requires period > 0 && k !in keys
    ensures Lineage(Covered(es, idx, period, keys + [k]))
         == Lineage(Covered(es, idx, period, keys)) + Lineage(Group(es, idx, period, k))
  {
    if es != [] {
      CoveredOneMore(es[..|es| - 1], idx, period, keys, k);
      CoveredSnoc(es, idx, period, keys + [k]);
      CoveredSnoc(es, idx, period, keys);
      GroupSnoc(es, idx, period, k);
    }
  }

  lemma {:induction false} CoveredAll(es: seq<Entry>, idx: Index, period: int, keys: seq<int>)
    requires period > 0 && forall i :: 0 <= i < |es| ==> KeyOf(es[i], idx, period) in keys
    ensures Covered(es, idx, period, keys) == es
  {
    if es != [] {
      var n := |es| - 1;
      CoveredAll(es[..n], idx, period, keys);
      assert KeyOf(es[n], idx, period) in keys;
      assert es[..n] + [es[n]] == es;
    }
  }

  lemma {:induction false} AveragesCover(es: seq<Entry>, added: seq<Entry>, idx: Index, keys: seq<int>, period: int)
    requires period > 0 && Averages(es, added, idx, keys, period) && Distinct(keys)
    ensures Lineage(added) == Lineage(Covered(es, idx, period, keys))
  {
    if keys == [] {
      CoveredNone(es, idx, period);
    } else {
      var n := |keys| - 1;
      AveragesCover(es, added[..n], idx, keys[..n], period);
      assert keys == keys[..n] + [keys[n]];
      CoveredOneMore(es, idx, period, keys[..n], keys[n]);
    }
  }

  lemma CoveredNone(es: seq<Entry>, idx: Index, period: int)
    requires period > 0
    ensures Covered(es, idx, period, []) == []
  {}

  /** Whatever the keys do, even if they collide: the new rows stand for exactly the
      samples of the old ones. */
  lemma RollupConserves(es: seq<Entry>, added: seq<Entry>, idx: Index, keys: seq<int>, period: int)
    requires period > 0 && IsRollup(es, added, idx, keys, period)
    ensures Lineage(added) == Lineage(es)
  {
    AveragesCover(es, added, idx, keys, period);
    CoveredAll(es, idx, period, keys);
  }

  /** Selected by a cutoff are exactly the rows before it, or exactly the others. */
  lemma {:induction false} SelectIs(es: seq<Entry>, cutoff: int, e: Entry)
    ensures e in Select(es, cutoff, true) <==> e in es && e.row.ts < cutoff
    ensures e in Select(es, cutoff, false) <==> e in es && e.row.ts >= cutoff
  {
    if es != [] {
      var n := |es| - 1;
      SelectIs(es[..n], cutoff, e);
      assert e in es <==> e in es[..n] || e == es[n];
    }
  }

  lemma {:induction false} SelectSplits(es: seq<Entry>, cutoff: int)
    ensures Lineage(Select(es, cutoff, true)) + Lineage(Select(es, cutoff, false)) == Lineage(es)
  {
    if es != [] {
      var n := |es| - 1;
      SelectSplits(es[..n], cutoff);
      LineageOpt(Select(es[..n], cutoff, true), es[n], es[n].row.ts < cutoff);
      LineageOpt(Select(es[..n], cutoff, false), es[n], es[n].row.ts >= cutoff);
    }
  }

  // ---- What a row says about its samples ----

  /** The row's node and aligned time are those of every sample behind it, and each of its
      figures lies between the least and the greatest of its samples'. */
  ghost predicate EntryOk(e: Entry, t: Tier) {
    && |e.behind| > 0
    && (forall s :: s in e.behind ==> s.node == e.row.node && Align(s.ts, Period(t)) == e.row.ts)
    && (forall f :: Between(e, f))
  }

  ghost predicate Between(e: Entry, f: Field) {
    && (exists s :: s in e.behind && Get(s, f) <= Get(e.row, f))
    && (exists s :: s in e.behind && Get(e.row, f) <= Get(s, f))
  }

  ghost predicate TableOk(es: seq<Entry>, t: Tier) {
    forall i :: 0 <= i < |es| ==> EntryOk(es[i], t)
  }

  /** In milliseconds: a right row of a tier stands at the start of the hour, day or week of every
      sample behind it, for times from 1970 on. */
  lemma RowSpans(e: Entry, t: Tier, s: Row)
    requires EntryOk(e, t) && t != Raw && s in e.behind && s.ts >= 0
    ensures e.row.ts <= s.ts < e.row.ts + if t == Hourly then 3_600_000 else if t == Daily then 86_400_000 else 604_800_000
    ensures e.row.ts % (if t == Hourly then 3_600_000 else if t == Daily then 86_400_000 else 604_800_000) == 0
  {
    AlignIsFloor(s.ts, Period(t));
  }

  /** Some member has the largest figure, and some the smallest. `up` picks which. */
  lemma {:induction false} Extreme(g: seq<Entry>, f: Field, up: bool) returns (i: nat)
    requires |g| > 0
    ensures i < |g|
    ensures up ==> forall k :: 0 <= k < |g| ==> Get(g[k].row, f) <= Get(g[i].row, f)
    ensures !up ==> forall k :: 0 <= k < |g| ==> Get(g[i].row, f) <= Get(g[k].row, f)
  {
    var n := |g| - 1;
    i := n;
    if n > 0 {
      var j := Extreme(g[..n], f, up);
      var a, b := Get(g[j].row, f), Get(g[n].row, f);
      if (up && a >= b) || (!up && a <= b) { i := j; }
      assert forall k :: 0 <= k < n ==> g[..n][k] == g[k];
    }
  }

  lemma TimesOneMore(m: real, n: nat)
    ensures m * (n + 1) as real == m * n as real + m
  {
    assert (n + 1) as real == n as real + 1.0;
  }

  lemma OneMoreBetween(lo: real, hi: real, sum: real, x: real, n: nat)
    requires lo * n as real <= sum <= hi * n as real && lo <= x <= hi
    ensures lo * (n + 1) as real <= sum + x <= hi * (n + 1) as real
  {
    TimesOneMore(lo, n);
    TimesOneMore(hi, n);
  }

  lemma {:induction false} SumBetween(g: seq<Entry>, f: Field, lo: real, hi: real)
    requires forall k :: 0 <= k < |g| ==> lo <= Get(g[k].row, f) <= hi
    ensures lo * |g| as real <= Sum(g, f) <= hi * |g| as real
  {
    if g != [] {
      var n := |g| - 1;
      SumBetween(g[..n], f, lo, hi);
      OneMoreBetween(lo, hi, Sum(g[..n], f), Get(g[n].row, f), n);
    }
  }

  lemma QuotientBounds(x: real, n: real, m: real)
    requires n > 0.0
    ensures m * n <= x ==> m <= x / n
    ensures x <= m * n ==> x / n <= m
  {
    var q := x / n;
    assert q * n == x;
    if m > q { assert (m - q) * n > 0.0; }
    if q > m { assert (q - m) * n > 0.0; }
  }

  lemma TruncBetween(lo: int, x: real, hi: int)
    ensures lo as real <= x ==> lo <= RealTrunc(x)
    ensures x <= hi as real ==> RealTrunc(x) <= hi
  {}

  lemma {:induction false} MemberBehind(g: seq<Entry>, i: nat, s: Row)
    requires i < |g| && s in g[i].behind
    ensures s in Lineage(g)
  {
    var n := |g| - 1;
    if i < n { MemberBehind(g[..n], i, s); }
  }

  lemma {:induction false} BehindMember(g: seq<Entry>, s: Row) returns (i: nat)
    requires s in Lineage(g)
    ensures i < |g| && s in g[i].behind
  {
    i := |g| - 1;
    if s !in g[i].behind { i := BehindMember(g[..i], s); }
  }

  lemma MeanIn(g: seq<Entry>, f: Field, lo: real, hi: real)
    requires |g| > 0 && forall k :: 0 <= k < |g| ==> lo <= Get(g[k].row, f) <= hi
    ensures lo <= Mean(g, f) <= hi
  {
    SumBetween(g, f, lo, hi);
    var total, n := Sum(g, f), |g| as real;
    QuotientBounds(total, n, lo);
    QuotientBounds(total, n, hi);
  }

  lemma MeanBetween(g: seq<Entry>, f: Field) returns (i: nat, j: nat)
    requires |g| > 0
    ensures i < |g| && j < |g| && Get(g[i].row, f) <= Mean(g, f) <= Get(g[j].row, f)
  {
    i := Extreme(g, f, false);
    j := Extreme(g, f, true);
    var lo, hi := Get(g[i].row, f), Get(g[j].row, f);
    MeanIn(g, f, lo, hi);
  }

  /** Cutting the mean flow count to an integer does not carry it past an integer bound. */
  lemma FigureBetween(g: seq<Entry>, period: int, f: Field, lo: Row, hi: Row)
    requires |g| > 0 && period > 0 && Get(lo, f) <= Mean(g, f) <= Get(hi, f)
    ensures Get(lo, f) <= Get(Average(g, period).row, f) <= Get(hi, f)
  {
    TruncBetween(lo.flows, Mean(g, f), hi.flows);
  }

  /** The average of rows that lie between their samples lies between all of them. */
  lemma AverageBetween(g: seq<Entry>, period: int, f: Field)
    requires |g| > 0 && period > 0 && forall i :: 0 <= i < |g| ==> Between(g[i], f)
    ensures Between(Average(g, period), f)
  {
    var i, j := MeanBetween(g, f);
    FigureBetween(g, period, f, g[i].row, g[j].row);
    assert Between(g[i], f) && Between(g[j], f);
    var lo :| lo in g[i].behind && Get(lo, f) <= Get(g[i].row, f);
    var hi :| hi in g[j].behind && Get(g[j].row, f) <= Get(hi, f);
    MemberBehind(g, i, lo);
    MemberBehind(g, j, hi);
    BetweenWitness(Average(g, period), f, lo, hi);
  }

  lemma BetweenWitness(e: Entry, f: Field, lo: Row, hi: Row)
    requires lo in e.behind && hi in e.behind && Get(lo, f) <= Get(e.row, f) <= Get(hi, f)
    ensures Between(e, f)
  {}

  /** The rows' keys cannot collide: within the bounds, or with few nodes. */
  ghost predicate KeysFit(es: seq<Entry>) {
    && (forall i :: 0 <= i < |es| ==> MIN64 <= es[i].row.ts <= MAX64)
    && (|Nodes(es)| < 4096
        || (|Nodes(es)| <= MAX_NODES && forall i :: 0 <= i < |es| ==> -MAX_MILLIS <= es[i].row.ts <= MAX_MILLIS))
  }

  lemma SameKeySameBucket(es: seq<Entry>, idx: Index, t: Tier, i: nat, j: nat)
    requires t != Raw && Indexes(idx, es) && KeysFit(es) && i < |es| && j < |es|
    requires KeyOf(es[i], idx, Period(t)) == KeyOf(es[j], idx, Period(t))
    ensures es[i].row.node == es[j].row.node && Align(es[i].row.ts, Period(t)) == Align(es[j].row.ts, Period(t))
  {
    var a, b := es[i].row, es[j].row;
    assert a.node in Nodes(es) && b.node in Nodes(es);
    assert |idx| == |idx.Keys| == |Nodes(es)|;
    if |Nodes(es)| < 4096 {
      FewNodesNeverCollide(t, a.ts, idx[a.node], b.ts, idx[b.node]);
    } else {
      BoundedKeysInjective(t, a.ts, idx[a.node], b.ts, idx[b.node]);
    }
  }

  /** No bucket mixes nodes or times: equal keys only for equal node and aligned time. */
  ghost predicate NoCollision(es: seq<Entry>, idx: Index, t: Tier)
    requires Indexes(idx, es)
  {
    forall i, j :: 0 <= i < |es| && 0 <= j < |es| && SameKey(es, idx, t, i, j) ==>
      es[i].row.node == es[j].row.node && Align(es[i].row.ts, Period(t)) == Align(es[j].row.ts, Period(t))
  }

  predicate SameKey(es: seq<Entry>, idx: Index, t: Tier, i: nat, j: nat)
    requires i < |es| && j < |es|
  {
    KeyOf(es[i], idx, Period(t)) == KeyOf(es[j], idx, Period(t))
  }

  lemma KeysFitNoCollision(es: seq<Entry>, idx: Index, t: Tier)
    requires t != Raw && Indexes(idx, es) && KeysFit(es)
    ensures NoCollision(es, idx, t)
  {
    forall i, j | 0 <= i < |es| && 0 <= j < |es| && SameKey(es, idx, t, i, j)
      ensures es[i].row.node == es[j].row.node && Align(es[i].row.ts, Period(t)) == Align(es[j].row.ts, Period(t))
    {
      SameKeySameBucket(es, idx, t, i, j);
    }
  }

  lemma {:induction false} GroupMember(es: seq<Entry>, idx: Index, period: int, key: int, m: nat) returns (i: nat)
    requires period > 0 && m < |Group(es, idx, period, key)|
    ensures i < |es| && es[i] == Group(es, idx, period, key)[m] && KeyOf(es[i], idx, period) == key
  {
    i := |es| - 1;
    if m < |Group(es[..i], idx, period, key)| { i := GroupMember(es[..i], idx, period, key, m); }
  }

  /** A bucket's average speaks for all samples behind the bucket. */
  lemma AverageOk(es: seq<Entry>, idx: Index, t: Tier, key: int)
    requires t != Raw && Indexes(idx, es) && NoCollision(es, idx, t) && TableOk(es, Finer(t))
    requires |Group(es, idx, Period(t), key)| > 0
    ensures EntryOk(Average(Group(es, idx, Period(t), key), Period(t)), t)
  {
    var g := Group(es, idx, Period(t), key);
    var e := Average(g, Period(t));
    var i0 := GroupMember(es, idx, Period(t), key, 0);
    forall s | s in e.behind
      ensures s.node == e.row.node && Align(s.ts, Period(t)) == e.row.ts
    {
      var m := BehindMember(g, s);
      var i := GroupMember(es, idx, Period(t), key, m);
      assert SameKey(es, idx, t, i0, i);
      AlignNested(s.ts, t);
    }
    forall m | 0 <= m < |g|
      ensures EntryOk(g[m], Finer(t))
    {
      var i := GroupMember(es, idx, Period(t), key, m);
    }
    forall f
      ensures Between(e, f)
    {
      AverageBetween(g, Period(t), f);
    }
    assert Between(e, ByteRate);
    var s :| s in e.behind && Get(s, ByteRate) <= Get(e.row, ByteRate);
    assert e.behind[s] > 0;
  }

  lemma RollupOk(es: seq<Entry>, added: seq<Entry>, idx: Index, keys: seq<int>, t: Tier)
    requires t != Raw && TableOk(es, Finer(t)) && IsRollup(es, added, idx, keys, Period(t)) && NoCollision(es, idx, t)
    ensures TableOk(added, t)
  {
    forall i | 0 <= i < |added|
      ensures EntryOk(added[i], t)
    {
      AverageOk(es, idx, t, keys[i]);
    }
  }

  lemma {:induction false} InGroup(es: seq<Entry>, idx: Index, period: int, i: nat) returns (m: nat)
    requires period > 0 && i < |es|
    ensures var g := Group(es, idx, period, KeyOf(es[i], idx, period)); m < |g| && g[m] == es[i]
  {
    var n := |es| - 1;
    if i < n {
      m := InGroup(es[..n], idx, period, i);
    } else {
      m := |Group(es[..n], idx, period, KeyOf(es[i], idx, period))|;
    }
  }

  /** The row that a bucket becomes is about every row of the bucket. */
  lemma RowSpeaksFor(es: seq<Entry>, added: seq<Entry>, idx: Index, keys: seq<int>, t: Tier, i: nat, n: nat)
    requires t != Raw && TableOk(es, Finer(t)) && IsRollup(es, added, idx, keys, Period(t)) && TableOk(added, t)
    requires i < |es| && n < |keys| && keys[n] == KeyOf(es[i], idx, Period(t))
    ensures es[i].row.node == added[n].row.node && Align(es[i].row.ts, Period(t)) == added[n].row.ts
  {
    var m := InGroup(es, idx, Period(t), i);
    assert IsAverage(added[n], Group(es, idx, Period(t), keys[n]), Period(t));
    assert EntryOk(es[i], Finer(t)) && EntryOk(added[n], t);
    var s :| s in es[i].behind;
    MemberBehind(Group(es, idx, Period(t), keys[n]), m, s);
    AlignNested(s.ts, t);
  }

  lemma OkNeedsNoCollision(es: seq<Entry>, added: seq<Entry>, idx: Index, keys: seq<int>, t: Tier, i: nat, j: nat)
    requires t != Raw && TableOk(es, Finer(t)) && IsRollup(es, added, idx, keys, Period(t)) && TableOk(added, t)
    requires i < |es| && j < |es| && SameKey(es, idx, t, i, j)
    ensures es[i].row.node == es[j].row.node && Align(es[i].row.ts, Period(t)) == Align(es[j].row.ts, Period(t))
  {
    var key := KeyOf(es[i], idx, Period(t));
    assert key in Keys(es, idx, Period(t));
    var n :| 0 <= n < |keys| && keys[n] == key;
    RowSpeaksFor(es, added, idx, keys, t, i, n);
    RowSpeaksFor(es, added, idx, keys, t, j, n);
  }

  /** A rollup attributes every sample rightly exactly when no two of its buckets collide. */
  lemma AttributionIff(es: seq<Entry>, added: seq<Entry>, idx: Index, keys: seq<int>, t: Tier)
    requires t != Raw && TableOk(es, Finer(t)) && IsRollup(es, added, idx, keys, Period(t))
    ensures TableOk(added, t) <==> NoCollision(es, idx, t)
  {
    if NoCollision(es, idx, t) {
      RollupOk(es, added, idx, keys, t);
    } else if TableOk(added, t) {
      OkOnlyWithout(es, added, idx, keys, t);
    }
  }

  lemma OkOnlyWithout(es: seq<Entry>, added: seq<Entry>, idx: Index, keys: seq<int>, t: Tier)
    requires t != Raw && TableOk(es, Finer(t)) && IsRollup(es, added, idx, keys, Period(t)) && TableOk(added, t)
    ensures NoCollision(es, idx, t)
  {
    forall i, j | 0 <= i < |es| && 0 <= j < |es| && SameKey(es, idx, t, i, j)
      ensures es[i].row.node == es[j].row.node && Align(es[i].row.ts, Period(t)) == Align(es[j].row.ts, Period(t))
    {
      OkNeedsNoCollision(es, added, idx, keys, t, i, j);
    }
  }

  // ---- Whole runs ----

  datatype Tiers = Tiers(raw: seq<Entry>, hourly: seq<Entry>, daily: seq<Entry>, weekly: seq<Entry>)

  function At(a: Tiers, t: Tier): seq<Entry> {
    match t case Raw => a.raw case Hourly => a.hourly case Daily => a.daily case Weekly => a.weekly
  }

  /** An insert of a raw sample, or a rollup into a tier of all finer rows before a cutoff. */
  datatype Step = Insert(row: Row) | RollUp(tier: Tier, cutoff: int)

  function Moved(a: Tiers, t: Tier, kept: seq<Entry>, added: seq<Entry>): Tiers {
    match t
    case Raw => a
    case Hourly => a.(raw := kept, hourly := a.hourly + added)
    case Daily => a.(hourly := kept, daily := a.daily + added)
    case Weekly => a.(daily := kept, weekly := a.weekly + added)
  }

  ghost predicate Follows(a: Tiers, step: Step, b: Tiers) {
    match step
    case Insert(row) => b == a.(raw := a.raw + [Entry(row, multiset{row})])
    case RollUp(t, cutoff) =>
      t != Raw && exists added, idx, keys ::
        && IsRollup(Select(At(a, Finer(t)), cutoff, true), added, idx, keys, Period(t))
        && b == Moved(a, t, Select(At(a, Finer(t)), cutoff, false), added)
  }

  function Stored(a: Tiers): multiset<Row> {
    Lineage(a.raw) + Lineage(a.hourly) + Lineage(a.daily) + Lineage(a.weekly)
  }

  function Inserted(steps: seq<Step>): multiset<Row> {
    if steps == [] then multiset{}
    else
      var last := steps[|steps| - 1];
      Inserted(steps[..|steps| - 1]) + (if last.Insert? then multiset{last.row} else multiset{})
  }

  ghost predicate IsRun(states: seq<Tiers>, steps: seq<Step>) {
    && |states| == |steps| + 1
    && states[0] == Tiers([], [], [], [])
    && forall i :: 0 <= i < |steps| ==> Follows(states[i], steps[i], states[i + 1])
  }

  lemma Witness(a: Tiers, t: Tier, cutoff: int, b: Tiers) returns (added: seq<Entry>, idx: Index, keys: seq<int>)
    requires Follows(a, RollUp(t, cutoff), b)
    ensures t != Raw && IsRollup(Select(At(a, Finer(t)), cutoff, true), added, idx, keys, Period(t))
    ensures b == Moved(a, t, Select(At(a, Finer(t)), cutoff, false), added)
  {
    added, idx, keys :|
      && IsRollup(Select(At(a, Finer(t)), cutoff, true), added, idx, keys, Period(t))
      && b == Moved(a, t, Select(At(a, Finer(t)), cutoff, false), added);
  }

  /** The tables a rollup does not touch. */
  function Untouched(a: Tiers, t: Tier): multiset<Row> {
    match t
    case Raw => multiset{}
    case Hourly => Lineage(a.daily) + Lineage(a.weekly)
    case Daily => Lineage(a.raw) + Lineage(a.weekly)
    case Weekly => Lineage(a.raw) + Lineage(a.hourly)
  }

  lemma StoredIs(a: Tiers, t: Tier)
    requires t != Raw
    ensures Stored(a) == Lineage(At(a, Finer(t))) + Lineage(At(a, t)) + Untouched(a, t)
  {}

  lemma MovedConserves(a: Tiers, t: Tier, kept: seq<Entry>, added: seq<Entry>)
    requires t != Raw && Lineage(added) + Lineage(kept) == Lineage(At(a, Finer(t)))
    ensures Stored(Moved(a, t, kept, added)) == Stored(a)
  {
    var b := Moved(a, t, kept, added);
    LineageConcat(At(a, t), added);
    StoredIs(a, t);
    StoredIs(b, t);
    UntouchedStays(a, t, kept, added);
    Regroup(Lineage(kept), Lineage(At(a, t)), Lineage(added), Untouched(a, t));
  }

  lemma UntouchedStays(a: Tiers, t: Tier, kept: seq<Entry>, added: seq<Entry>)
    requires t != Raw
    ensures var b := Moved(a, t, kept, added);
            At(b, Finer(t)) == kept && At(b, t) == At(a, t) + added && Untouched(b, t) == Untouched(a, t)
  {}

  lemma Regroup(kept: multiset<Row>, stays: multiset<Row>, added: multiset<Row>, rest: multiset<Row>)
    ensures kept + (stays + added) + rest == (added + kept) + stays + rest
  {}

  lemma RollUpConserves(a: Tiers, t: Tier, cutoff: int, b: Tiers)
    requires Follows(a, RollUp(t, cutoff), b)
    ensures Stored(b) == Stored(a)
  {
    var added, idx, keys := Witness(a, t, cutoff, b);
    RollupConserves(Select(At(a, Finer(t)), cutoff, true), added, idx, keys, Period(t));
    SelectSplits(At(a, Finer(t)), cutoff);
    MovedConserves(a, t, Select(At(a, Finer(t)), cutoff, false), added);
  }

  lemma StepConserves(a: Tiers, step: Step, b: Tiers)
    requires Follows(a, step, b)
    ensures Stored(b) == Stored(a) + (if step.Insert? then multiset{step.row} else multiset{})
  {
    match step
    case Insert(row) => LineageSnoc(a.raw, Entry(row, multiset{row}));
    case RollUp(t, cutoff) => RollUpConserves(a, t, cutoff, b);
  }

  lemma InsertedLast(steps: seq<Step>, n: nat)
    requires 0 < n <= |steps|
    ensures Inserted(steps[..n]) == Inserted(steps[..n - 1])
      + (if steps[n - 1].Insert? then multiset{steps[n - 1].row} else multiset{})
  {
    assert steps[..n][..n - 1] == steps[..n - 1];
  }

  /** Conservation: at every moment of every run, under any keys and any cutoffs, every raw
      sample inserted so far is behind exactly one row of one tier, as often as inserted. */
  lemma {:induction false} SamplesConserved(states: seq<Tiers>, steps: seq<Step>, n: nat)
    requires IsRun(states, steps) && n <= |steps|
    ensures Stored(states[n]) == Inserted(steps[..n])
  {
    if n > 0 {
      SamplesConserved(states, steps, n - 1);
      StepConserves(states[n - 1], steps[n - 1], states[n]);
      InsertedLast(steps, n);
    }
  }

  function NodesOf(rows: multiset<Row>): set<string> {
    set r | r in rows :: r.node
  }

  /** A history whose bucket keys cannot collide. */
  ghost predicate Fits(rows: multiset<Row>) {
    && (forall r :: r in rows ==> MIN64 <= r.ts <= MAX64)
    && (|NodesOf(rows)| < 4096
        || (|NodesOf(rows)| <= MAX_NODES && forall r :: r in rows ==> -MAX_MILLIS <= r.ts <= MAX_MILLIS))
  }

  ghost predicate TiersOk(a: Tiers) {
    forall t :: TableOk(At(a, t), t)
  }

  lemma {:induction false} SelectKeeps(es: seq<Entry>, cutoff: int, past: bool, t: Tier)
    requires TableOk(es, t)
    ensures TableOk(Select(es, cutoff, past), t)
  {
    if es != [] {
      SelectKeeps(es[..|es| - 1], cutoff, past, t);
    }
  }

  lemma SubsetSize<T>(a: set<T>, b: set<T>)
    requires a <= b
    ensures |a| <= |b|
  {
    if a != {} {
      var x :| x in a;
      SubsetSize(a - {x}, b - {x});
    }
  }

  lemma EntryFits(es: seq<Entry>, t: Tier, i: nat) returns (s: Row)
    requires TableOk(es, t) && i < |es|
    ensures s in Lineage(es) && s.node == es[i].row.node
    ensures if s.ts >= 0 then 0 <= es[i].row.ts <= s.ts else s.ts <= es[i].row.ts <= 0
  {
    assert EntryOk(es[i], t);
    s :| s in es[i].behind;
    MemberBehind(es, i, s);
    AlignIsFloor(s.ts, Period(t));
    AlignSign(s.ts, Period(t));
  }

  lemma AlignSign(ts: int, period: int)
    requires period > 0
    ensures if ts >= 0 then 0 <= Align(ts, period) else Align(ts, period) <= 0
  {
    QuotientTimes(if ts >= 0 then ts else -ts, period);
    assert -(-ts / period) * period == -(-ts / period * period);
  }

  lemma TableFits(es: seq<Entry>, t: Tier, rows: multiset<Row>)
    requires TableOk(es, t) && Fits(rows) && Lineage(es) <= rows
    ensures KeysFit(es)
  {
    forall i | 0 <= i < |es|
      ensures es[i].row.node in NodesOf(rows)
      ensures MIN64 <= es[i].row.ts <= MAX64
      ensures (forall r :: r in rows ==> -MAX_MILLIS <= r.ts <= MAX_MILLIS) ==> -MAX_MILLIS <= es[i].row.ts <= MAX_MILLIS
    {
      var s := EntryFits(es, t, i);
      assert s in rows;
    }
    SubsetSize(Nodes(es), NodesOf(rows));
  }

  lemma RawOk(row: Row)
    ensures EntryOk(Entry(row, multiset{row}), Raw)
  {
    forall f
      ensures Between(Entry(row, multiset{row}), f)
    {
      BetweenWitness(Entry(row, multiset{row}), f, row, row);
    }
  }

  lemma TableConcat(a: seq<Entry>, b: seq<Entry>, t: Tier)
    requires TableOk(a, t) && TableOk(b, t)
    ensures TableOk(a + b, t)
  {}

  lemma PartStored(a: Tiers, t: Tier)
    ensures Lineage(At(a, t)) <= Stored(a)
  {}

  /** A step that mixes no buckets. */
  ghost predicate Clean(a: Tiers, step: Step, b: Tiers) {
    match step
    case Insert(_) => true
    case RollUp(t, cutoff) =>
      t != Raw && exists added, idx, keys ::
        && IsRollup(Select(At(a, Finer(t)), cutoff, true), added, idx, keys, Period(t))
        && NoCollision(Select(At(a, Finer(t)), cutoff, true), idx, t)
        && b == Moved(a, t, Select(At(a, Finer(t)), cutoff, false), added)
  }

  lemma PartsOk(src: seq<Entry>, t: Tier, cutoff: int, added: seq<Entry>, idx: Index, keys: seq<int>)
    requires t != Raw && TableOk(src, Finer(t)) && IsRollup(Select(src, cutoff, true), added, idx, keys, Period(t))
    ensures TableOk(added, t) <==> NoCollision(Select(src, cutoff, true), idx, t)
    ensures TableOk(Select(src, cutoff, false), Finer(t))
  {
    SelectKeeps(src, cutoff, true, Finer(t));
    SelectKeeps(src, cutoff, false, Finer(t));
    AttributionIff(Select(src, cutoff, true), added, idx, keys, t);
  }

  lemma FitsNoCollision(src: seq<Entry>, t: Tier, cutoff: int, idx: Index, rows: multiset<Row>)
    requires t != Raw && TableOk(src, Finer(t)) && Fits(rows) && Lineage(src) <= rows
    requires Indexes(idx, Select(src, cutoff, true))
    ensures NoCollision(Select(src, cutoff, true), idx, t)
  {
    var past := Select(src, cutoff, true);
    SelectSplits(src, cutoff);
    SelectKeeps(src, cutoff, true, Finer(t));
    assert Lineage(past) <= Lineage(src);
    TableFits(past, Finer(t), rows);
    KeysFitNoCollision(past, idx, t);
  }

  lemma FitsClean(a: Tiers, step: Step, b: Tiers, rows: multiset<Row>)
    requires Follows(a, step, b) && TiersOk(a) && Fits(rows) && Stored(a) <= rows
    ensures Clean(a, step, b)
  {
    match step
    case Insert(_) =>
    case RollUp(t, cutoff) =>
      var added, idx, keys := Witness(a, t, cutoff, b);
      PartStored(a, Finer(t));
      FitsNoCollision(At(a, Finer(t)), t, cutoff, idx, rows);
  }

  lemma MovedIs(a: Tiers, t: Tier, kept: seq<Entry>, added: seq<Entry>)
    requires t != Raw
    ensures var b := Moved(a, t, kept, added);
            && At(b, Finer(t)) == kept && At(b, t) == At(a, t) + added
            && forall u :: u != t && u != Finer(t) ==> At(b, u) == At(a, u)
  {}

  lemma MovedOk(a: Tiers, t: Tier, kept: seq<Entry>, added: seq<Entry>)
    requires t != Raw && TiersOk(a) && TableOk(kept, Finer(t))
    ensures TiersOk(Moved(a, t, kept, added)) <==> TableOk(added, t)
  {
    var b := Moved(a, t, kept, added);
    MovedIs(a, t, kept, added);
    assert TableOk(At(a, t), t);
    if TableOk(added, t) {
      TableConcat(At(a, t), added, t);
      forall u
        ensures TableOk(At(b, u), u)
      {
        if u != t && u != Finer(t) { assert At(b, u) == At(a, u); }
      }
    } else if TiersOk(b) {
      TableTail(At(a, t), added, t);
    }
  }

  lemma TableTail(a: seq<Entry>, b: seq<Entry>, t: Tier)
    requires TableOk(a + b, t)
    ensures TableOk(b, t)
  {
    forall i | 0 <= i < |b| ensures EntryOk(b[i], t) {
      assert (a + b)[|a| + i] == b[i];
    }
  }

  /** From right tables a step leads to right tables exactly when it mixes no buckets. */
  lemma StepOkIff(a: Tiers, step: Step, b: Tiers)
    requires Follows(a, step, b) && TiersOk(a)
    ensures TiersOk(b) <==> Clean(a, step, b)
  {
    match step
    case Insert(row) => InsertOk(a, row);
    case RollUp(t, cutoff) =>
      if Clean(a, step, b) {
        CleanOk(a, t, cutoff, b);
      } else if TiersOk(b) {
        OkClean(a, t, cutoff, b);
      }
  }

  lemma CleanOk(a: Tiers, t: Tier, cutoff: int, b: Tiers)
    requires TiersOk(a) && Clean(a, RollUp(t, cutoff), b)
    ensures TiersOk(b)
  {
    var past, kept := Select(At(a, Finer(t)), cutoff, true), Select(At(a, Finer(t)), cutoff, false);
    var added, idx, keys :| IsRollup(past, added, idx, keys, Period(t)) && NoCollision(past, idx, t) && b == Moved(a, t, kept, added);
    assert TableOk(At(a, Finer(t)), Finer(t));
    PartsOk(At(a, Finer(t)), t, cutoff, added, idx, keys);
    MovedOk(a, t, kept, added);
  }

  lemma OkClean(a: Tiers, t: Tier, cutoff: int, b: Tiers)
    requires TiersOk(a) && TiersOk(b) && Follows(a, RollUp(t, cutoff), b)
    ensures Clean(a, RollUp(t, cutoff), b)
  {
    var added, idx, keys := Witness(a, t, cutoff, b);
    assert TableOk(At(a, Finer(t)), Finer(t));
    PartsOk(At(a, Finer(t)), t, cutoff, added, idx, keys);
    MovedOk(a, t, Select(At(a, Finer(t)), cutoff, false), added);
  }

  lemma InsertOk(a: Tiers, row: Row)
    requires TiersOk(a)
    ensures TiersOk(a.(raw := a.raw + [Entry(row, multiset{row})]))
  {
    var b := a.(raw := a.raw + [Entry(row, multiset{row})]);
    RawOk(row);
    assert TableOk(At(a, Raw), Raw);
    TableConcat(a.raw, [Entry(row, multiset{row})], Raw);
    forall u
      ensures TableOk(At(b, u), u)
    {
      if u != Raw { assert At(b, u) == At(a, u); }
    }
  }

  lemma NothingYet()
    ensures TiersOk(Tiers([], [], [], []))
  {}

  /** Over every run: every row of every tier carries, at every moment, the node and the aligned
      time of all samples behind it, and figures between theirs, exactly when no rollup of the
      run mixes buckets. */
  lemma AttributionThroughoutIff(states: seq<Tiers>, steps: seq<Step>)
    requires IsRun(states, steps)
    ensures (forall n :: 0 <= n <= |steps| ==> TiersOk(states[n]))
            <==> forall n :: 0 <= n < |steps| ==> Clean(states[n], steps[n], states[n + 1])
  {
    if forall n :: 0 <= n <= |steps| ==> TiersOk(states[n]) {
      forall n | 0 <= n < |steps| ensures Clean(states[n], steps[n], states[n + 1]) {
        StepOkIff(states[n], steps[n], states[n + 1]);
      }
    }
    if forall n :: 0 <= n < |steps| ==> Clean(states[n], steps[n], states[n + 1]) {
      forall n | 0 <= n <= |steps| ensures TiersOk(states[n]) {
        CleanRunOk(states, steps, n);
      }
    }
  }

  lemma {:induction false} CleanRunOk(states: seq<Tiers>, steps: seq<Step>, n: nat)
    requires IsRun(states, steps) && n <= |steps|
    requires forall i :: 0 <= i < n ==> Clean(states[i], steps[i], states[i + 1])
    ensures TiersOk(states[n])
  {
    if n == 0 {
      NothingYet();
    } else {
      CleanRunOk(states, steps, n - 1);
      StepOkIff(states[n - 1], steps[n - 1], states[n]);
    }
  }

  /** Attribution: while the keys fit, every row of every tier carries the node and the
      aligned time of all samples behind it, and figures between theirs. */
  lemma {:induction false} RowsSpeakForTheirSamples(states: seq<Tiers>, steps: seq<Step>, n: nat)
    requires IsRun(states, steps) && n <= |steps| && Fits(Inserted(steps[..n]))
    ensures TiersOk(states[n])
  {
    if n > 0 {
      InsertedLast(steps, n);
      FitsShrinks(Inserted(steps[..n - 1]), Inserted(steps[..n]));
      RowsSpeakForTheirSamples(states, steps, n - 1);
      SamplesConserved(states, steps, n - 1);
      assert Stored(states[n - 1]) <= Inserted(steps[..n]);
      FitsClean(states[n - 1], steps[n - 1], states[n], Inserted(steps[..n]));
      StepOkIff(states[n - 1], steps[n - 1], states[n]);
    }
  }

  lemma FitsShrinks(fewer: multiset<Row>, rows: multiset<Row>)
    requires fewer <= rows && Fits(rows)
    ensures Fits(fewer)
  {
    assert forall r :: r in fewer ==> r in rows;
    SubsetSize(NodesOf(fewer), NodesOf(rows));
  }

  /** The store, with its tables changed in place. */
  class Store {
    var raw: seq<Entry>
    var hourly: seq<Entry>
    var daily: seq<Entry>
    var weekly: seq<Entry>

    function Value(): Tiers reads this {
      Tiers(raw, hourly, daily, weekly)
    }

    constructor ()
      ensures Value() == Tiers([], [], [], [])
    {
      raw, hourly, daily, weekly := [], [], [], [];
    }

    method InsertSnapshot(row: Row)
      modifies this`raw
      ensures Follows(old(Value()), Insert(row), Value())
    {
      raw := raw + [Entry(row, multiset{row})];
    }

    /** Queries the rows before the cutoff, aggregates, and deletes what was aggregated. */
    static method Aggregate(src: seq<Entry>, period: int, cutoff: int)
      returns (kept: seq<Entry>, added: seq<Entry>, ghost idx: Index, ghost keys: seq<int>)
      requires period > 0
      ensures IsRollup(Select(src, cutoff, true), added, idx, keys, period)
      ensures AllRight(Select(src, cutoff, true), added, idx, keys, period)
      ensures kept == Select(src, cutoff, false)
    {
      var rows := Select(src, cutoff, true);
      var buckets, order;
      order, buckets := Scan(rows, period);
      added, keys := Emit(rows, period, order, buckets);
      idx := order;
      kept := src;
      if |buckets| > 0 {
        kept := Select(src, cutoff, false);
      } else {
        NothingAdded(rows, added, idx, keys, period);
        NothingOld(src, cutoff);
      }
    }

    method AggregateToHourly(cutoff: int)
      modifies this`raw, this`hourly
      ensures Follows(old(Value()), RollUp(Hourly, cutoff), Value())
    {
      var kept, added, idx, keys := Aggregate(raw, HOUR, cutoff);
      raw, hourly := kept, hourly + added;
      assert IsRollup(Select(At(old(Value()), Finer(Hourly)), cutoff, true), added, idx, keys, Period(Hourly));
    }

    method AggregateToDaily(cutoff: int)
      modifies this`hourly, this`daily
      ensures Follows(old(Value()), RollUp(Daily, cutoff), Value())
    {
      var kept, added, idx, keys := Aggregate(hourly, DAY, cutoff);
      hourly, daily := kept, daily + added;
      assert IsRollup(Select(At(old(Value()), Finer(Daily)), cutoff, true), added, idx, keys, Period(Daily));
    }

    method AggregateToWeekly(cutoff: int)
      modifies this`daily, this`weekly
      ensures Follows(old(Value()), RollUp(Weekly, cutoff), Value())
    {
      var kept, added, idx, keys := Aggregate(daily, WEEK, cutoff);
      daily, weekly := kept, weekly + added;
      assert IsRollup(Select(At(old(Value()), Finer(Weekly)), cutoff, true), added, idx, keys, Period(Weekly));
    }
  }

  lemma FirstKey(es: seq<Entry>, idx: Index, period: int)
    requires period > 0 && es != [] && Indexes(idx, es)
    ensures KeyOf(es[0], idx, period) in Keys(es, idx, period)
  {}

  lemma NothingAdded(es: seq<Entry>, added: seq<Entry>, idx: Index, keys: seq<int>, period: int)
    requires period > 0 && IsRollup(es, added, idx, keys, period) && added == []
    ensures es == []
  {
    if es != [] {
      FirstKey(es, idx, period);
    }
  }

  lemma {:induction false} NothingPicked(es: seq<Entry>, cutoff: int)
    requires |Select(es, cutoff, true)| == 0
    ensures forall i :: 0 <= i < |es| ==> es[i].row.ts >= cutoff
  {
    if es != [] {
      NothingPicked(es[..|es| - 1], cutoff);
    }
  }

  lemma {:induction false} AllPicked(es: seq<Entry>, cutoff: int, past: bool)
    requires forall i :: 0 <= i < |es| ==> (es[i].row.ts < cutoff) == past
    ensures Select(es, cutoff, past) == es
  {
    if es != [] {
      var n := |es| - 1;
      AllPicked(es[..n], cutoff, past);
      assert Pick(es[n], cutoff, past) == [es[n]] && es == es[..n] + [es[n]];
    }
  }

  lemma NothingOld(es: seq<Entry>, cutoff: int)
    requires Select(es, cutoff, true) == []
    ensures Select(es, cutoff, false) == es
  {
    NothingPicked(es, cutoff);
    AllPicked(es, cutoff, false);
  }
}
