/** Tiered traffic history: raw, hourly, daily and weekly rows, and the rollups that move
    old rows one tier up, averaging the rows of one node and period. */
module Rollup {
  import opened TierKeys

  datatype Row = Row(node: string, ts: int, bps: real, pps: real, flows: int)

  /** A stored row, and the raw samples that went into it. */
  datatype Entry = Entry(row: Row, behind: multiset<Row>)

  datatype Field = ByteRate | PacketRate | FlowCount

  function Get(r: Row, f: Field): real {
    match f case ByteRate => r.bps case PacketRate => r.pps case FlowCount => r.flows as real
  }

  /** Conversion of a float to an integer in the program: towards zero. */
  function RealTrunc(x: real): int {
    if x >= 0.0 then x.Floor else -(-x).Floor
  }

  function Pick(e: Entry, cutoff: int, past: bool): seq<Entry> {
    if (e.row.ts < cutoff) == past then [e] else []
  }

  function Select(es: seq<Entry>, cutoff: int, past: bool): seq<Entry> {
    if es == [] then []
    else
      var last := es[|es| - 1];
      Select(es[..|es| - 1], cutoff, past) + Pick(last, cutoff, past)
  }

  function Lineage(es: seq<Entry>): multiset<Row> {
    if es == [] then multiset{} else Lineage(es[..|es| - 1]) + es[|es| - 1].behind
  }

  function Sum(es: seq<Entry>, f: Field): real {
    if es == [] then 0.0 else Sum(es[..|es| - 1], f) + Get(es[|es| - 1].row, f)
  }

  function Mean(es: seq<Entry>, f: Field): real
    requires |es| > 0
  {
    Sum(es, f) / |es| as real
  }

  function Average(g: seq<Entry>, period: int): Entry
    requires |g| > 0 && period > 0
  {
    Entry(Row(g[0].row.node, Align(g[0].row.ts, period), Mean(g, ByteRate), Mean(g, PacketRate), RealTrunc(Mean(g, FlowCount))),
          Lineage(g))
  }

  type Index = map<string, int>

  function KeyOf(e: Entry, idx: Index, period: int): int
    requires period > 0
  {
    PackedKey(Align(e.row.ts, period), if e.row.node in idx then idx[e.row.node] else 0)
  }

  function Group(es: seq<Entry>, idx: Index, period: int, key: int): seq<Entry>
    requires period > 0
  {
    if es == [] then []
    else
      var last := es[|es| - 1];
      Group(es[..|es| - 1], idx, period, key) + (if KeyOf(last, idx, period) == key then [last] else [])
  }

  function Nodes(es: seq<Entry>): set<string> {
    set i | 0 <= i < |es| :: es[i].row.node
  }

  function Keys(es: seq<Entry>, idx: Index, period: int): set<int>
    requires period > 0
  {
    set i | 0 <= i < |es| :: KeyOf(es[i], idx, period)
  }

  /** Numbers from 1 up to the number of nodes, each node its own. */
  ghost predicate Numbering(idx: Index) {
    && (forall n :: n in idx ==> 1 <= idx[n] <= |idx|)
    && (forall n, m :: n in idx && m in idx && idx[n] == idx[m] ==> n == m)
  }

  /** The nodes of some rows, numbered. */
  ghost predicate Indexes(idx: Index, es: seq<Entry>) {
    idx.Keys == Nodes(es) && Numbering(idx)
  }

  /** `added` is one average row for each bucket the rows `es` fall into. */
  ghost predicate IsRollup(es: seq<Entry>, added: seq<Entry>, idx: Index, keys: seq<int>, period: int)
    requires period > 0
  {
    && Indexes(idx, es)
    && (forall k :: k in keys <==> k in Keys(es, idx, period))
    && Distinct(keys)
    && Averages(es, added, idx, keys, period)
  }

  datatype Bucket = Bucket(node: string, ts: int, sumBytes: real, sumPkts: real, sumFlows: real, count: nat)

  ghost predicate Totals(b: Bucket, g: seq<Entry>, period: int)
    requires period > 0
  {
    && |g| > 0
    && b == Bucket(g[0].row.node, Align(g[0].row.ts, period), Sum(g, ByteRate), Sum(g, PacketRate), Sum(g, FlowCount), |g|)
  }

  lemma GroupOtherIndex(es: seq<Entry>, idx: Index, idx': Index, period: int, key: int)
    requires period > 0 && forall i :: 0 <= i < |es| ==> KeyOf(es[i], idx, period) == KeyOf(es[i], idx', period)
    ensures Group(es, idx, period, key) == Group(es, idx', period, key)
  {}

  lemma {:induction false} GroupNonempty(es: seq<Entry>, idx: Index, period: int, key: int)
    requires period > 0
    ensures |Group(es, idx, period, key)| > 0 <==> key in Keys(es, idx, period)
  {
    if es != [] {
      var n := |es| - 1;
      GroupNonempty(es[..n], idx, period, key);
      assert forall i :: 0 <= i < n ==> es[..n][i] == es[i];
    }
  }

  function Numbered(idx: Index, node: string): Index {
    if node in idx then idx else idx[node := |idx| + 1]
  }

  lemma NodesSnoc(es: seq<Entry>, e: Entry)
    ensures Nodes(es + [e]) == Nodes(es) + {e.row.node}
  {
    var more := es + [e];
    assert more[|es|] == e;
    forall n ensures n in Nodes(more) <==> n in Nodes(es) + {e.row.node} {
      if n in Nodes(es) {
        var i :| 0 <= i < |es| && es[i].row.node == n;
        assert more[i].row.node == n;
      }
    }
  }

  lemma NumberingGrows(idx: Index, node: string)
    requires Numbering(idx) && node !in idx
    ensures Numbering(idx[node := |idx| + 1])
  {
    assert |idx[node := |idx| + 1]| == |idx| + 1;
  }

  lemma NumberedIndexes(idx: Index, node: string, es: seq<Entry>, more: seq<Entry>)
    requires Indexes(idx, es) && Nodes(more) == Nodes(es) + {node}
    ensures Indexes(Numbered(idx, node), more)
  {
    assert Numbered(idx, node).Keys == idx.Keys + {node};
    if node !in idx {
      NumberingGrows(idx, node);
    }
  }

  lemma KeyKept(es: seq<Entry>, idx: Index, node: string, period: int, i: nat)
    requires Indexes(idx, es) && period > 0 && i < |es|
    ensures KeyOf(es[i], idx, period) == KeyOf(es[i], Numbered(idx, node), period)
  {
    assert es[i].row.node in Nodes(es);
  }

  /** Numbering one more node keeps the numbers of the others, so no key changes. */
  lemma IndexGrows(es: seq<Entry>, e: Entry, idx: Index, period: int)
    requires Indexes(idx, es) && period > 0
    ensures Indexes(Numbered(idx, e.row.node), es + [e])
    ensures forall i :: 0 <= i < |es| ==> KeyOf(es[i], idx, period) == KeyOf(es[i], Numbered(idx, e.row.node), period)
  {
    NodesSnoc(es, e);
    NumberedIndexes(idx, e.row.node, es, es + [e]);
    forall i | 0 <= i < |es|
      ensures KeyOf(es[i], idx, period) == KeyOf(es[i], Numbered(idx, e.row.node), period)
    {
      KeyKept(es, idx, e.row.node, period, i);
    }
  }

  function Put(buckets: map<int, Bucket>, key: int, row: Row, aligned: int): map<int, Bucket> {
    if key in buckets then
      var b := buckets[key];
      buckets[key := Bucket(b.node, b.ts, b.sumBytes + row.bps, b.sumPkts + row.pps, b.sumFlows + row.flows as real, b.count + 1)]
    else
      buckets[key := Bucket(row.node, aligned, row.bps, row.pps, row.flows as real, 1)]
  }

  ghost predicate BucketsOk(buckets: map<int, Bucket>, es: seq<Entry>, idx: Index, period: int)
    requires period > 0
  {
    && (forall k :: k in buckets <==> |Group(es, idx, period, k)| > 0)
    && (forall k :: k in buckets ==> Totals(buckets[k], Group(es, idx, period, k), period))
  }

  lemma GroupSnoc(es: seq<Entry>, e: Entry, idx: Index, period: int, key: int)
    requires period > 0
    ensures Group(es + [e], idx, period, key)
         == Group(es, idx, period, key) + (if KeyOf(e, idx, period) == key then [e] else [])
  {
    assert (es + [e])[..|es|] == es;
  }

  lemma TotalsSnoc(b: Bucket, g: seq<Entry>, e: Entry, period: int)
    requires period > 0 && Totals(b, g, period)
    ensures Totals(Bucket(b.node, b.ts, b.sumBytes + e.row.bps, b.sumPkts + e.row.pps,
                          b.sumFlows + e.row.flows as real, b.count + 1), g + [e], period)
  {
    assert (g + [e])[..|g|] == g;
  }

  lemma TotalsOne(e: Entry, period: int)
    requires period > 0
    ensures Totals(Bucket(e.row.node, Align(e.row.ts, period), e.row.bps, e.row.pps, e.row.flows as real, 1), [e], period)
  {
    assert [e][..0] == [];
  }

  lemma BucketStep(buckets: map<int, Bucket>, es: seq<Entry>, e: Entry, idx: Index, period: int)
    requires period > 0 && BucketsOk(buckets, es, idx, period)
    ensures BucketsOk(Put(buckets, KeyOf(e, idx, period), e.row, Align(e.row.ts, period)), es + [e], idx, period)
  {
    var key := KeyOf(e, idx, period);
    var buckets' := Put(buckets, key, e.row, Align(e.row.ts, period));
    forall k
      ensures k in buckets' <==> |Group(es + [e], idx, period, k)| > 0
      ensures k in buckets' ==> Totals(buckets'[k], Group(es + [e], idx, period, k), period)
    {
      GroupSnoc(es, e, idx, period, k);
      if k == key {
        if key in buckets {
          TotalsSnoc(buckets[key], Group(es, idx, period, key), e, period);
        } else {
          TotalsOne(e, period);
          assert Group(es, idx, period, key) + [e] == [e];
        }
      } else {
        assert Group(es, idx, period, k) + [] == Group(es, idx, period, k);
      }
    }
  }

  lemma BucketsOtherIndex(buckets: map<int, Bucket>, es: seq<Entry>, idx: Index, idx': Index, period: int)
    requires period > 0 && BucketsOk(buckets, es, idx, period)
    requires forall i :: 0 <= i < |es| ==> KeyOf(es[i], idx, period) == KeyOf(es[i], idx', period)
    ensures BucketsOk(buckets, es, idx', period)
  {
    forall k
      ensures Group(es, idx, period, k) == Group(es, idx', period, k)
    {
      GroupOtherIndex(es, idx, idx', period, k);
    }
  }

  lemma ScanStep(buckets: map<int, Bucket>, es: seq<Entry>, e: Entry, more: seq<Entry>, idx: Index, period: int)
    requires period > 0 && Indexes(idx, es) && BucketsOk(buckets, es, idx, period) && more == es + [e]
    ensures Indexes(Numbered(idx, e.row.node), more)
    ensures BucketsOk(Put(buckets, KeyOf(e, Numbered(idx, e.row.node), period), e.row, Align(e.row.ts, period)), more,
                      Numbered(idx, e.row.node), period)
  {
    IndexGrows(es, e, idx, period);
    BucketsOtherIndex(buckets, es, idx, Numbered(idx, e.row.node), period);
    BucketStep(buckets, es, e, Numbered(idx, e.row.node), period);
  }

  /** The bucket loop: numbers the nodes in order of appearance and sums up the rows. */
  method Scan(es: seq<Entry>, period: int) returns (idx: Index, buckets: map<int, Bucket>)
    requires period > 0
    ensures Indexes(idx, es)
    ensures BucketsOk(buckets, es, idx, period)
  {
    idx, buckets := map[], map[];
    var next := 1;
    for n := 0 to |es|
      invariant next == |idx| + 1
      invariant Indexes(idx, es[..n])
      invariant BucketsOk(buckets, es[..n], idx, period)
    {
      ScanStep(buckets, es[..n], es[n], es[..n + 1], idx, period);
      idx, next, buckets := AddRow(idx, next, buckets, es[n], period);
    }
    assert es[..|es|] == es;
  }

  method AddRow(idx: Index, next: int, buckets: map<int, Bucket>, e: Entry, period: int)
    returns (idx': Index, next': int, buckets': map<int, Bucket>)
    requires period > 0 && next == |idx| + 1
    ensures idx' == Numbered(idx, e.row.node) && next' == |idx'| + 1
    ensures buckets' == Put(buckets, KeyOf(e, idx', period), e.row, Align(e.row.ts, period))
  {
    idx', next', buckets' := idx, next, buckets;
    var row := e.row;
    var aligned := Align(row.ts, period);
    if row.node !in idx {
      idx' := idx[row.node := next];
      next' := next + 1;
    }
    var key := PackedKey(aligned, idx'[row.node]);
    if key in buckets {
      var b := buckets[key];
      buckets' := buckets[key := Bucket(b.node, b.ts, b.sumBytes + row.bps, b.sumPkts + row.pps,
                                        b.sumFlows + row.flows as real, b.count + 1)];
    } else {
      buckets' := buckets[key := Bucket(row.node, aligned, row.bps, row.pps, row.flows as real, 1)];
    }
  }

  method MakeRow(b: Bucket, ghost g: seq<Entry>, period: int) returns (row: Row)
    requires period > 0 && Totals(b, g, period)
    ensures row == Average(g, period).row
    ensures RightRow(row, g, period)
  {
    var n := b.count as real;
    row := Row(b.node, b.ts, b.sumBytes / n, b.sumPkts / n, RealTrunc(b.sumFlows / n));
    AverageIsRight(g, period);
  }

  // ---- What an average row says, in plain numbers ----

  function TotalBytes(g: seq<Entry>): real {
    if g == [] then 0.0 else TotalBytes(g[..|g| - 1]) + g[|g| - 1].row.bps
  }

  function TotalPackets(g: seq<Entry>): real {
    if g == [] then 0.0 else TotalPackets(g[..|g| - 1]) + g[|g| - 1].row.pps
  }

  function TotalFlows(g: seq<Entry>): int {
    if g == [] then 0 else TotalFlows(g[..|g| - 1]) + g[|g| - 1].row.flows
  }

  /** The whole part of a quotient, towards zero. */
  predicate WholeQuotient(q: int, sum: int, n: nat) {
    if sum >= 0 then q * n <= sum < (q + 1) * n else (q - 1) * n < sum <= q * n
  }

  /** A row about these rows: the node and aligned time of the first; rates that, taken as
      often as there are rows, give the rows' sums; and the whole part of the mean flow
      count. */
  ghost predicate RightRow(row: Row, g: seq<Entry>, period: int)
    requires period > 0
  {
    && |g| > 0 && row.node == g[0].row.node && row.ts == Align(g[0].row.ts, period)
    && row.bps * |g| as real == TotalBytes(g)
    && row.pps * |g| as real == TotalPackets(g)
    && WholeQuotient(row.flows, TotalFlows(g), |g|)
  }

  lemma {:induction false} SumsArePlain(g: seq<Entry>)
    ensures Sum(g, ByteRate) == TotalBytes(g) && Sum(g, PacketRate) == TotalPackets(g)
    ensures Sum(g, FlowCount) == TotalFlows(g) as real
  {
    if g != [] {
      SumsArePlain(g[..|g| - 1]);
    }
  }

  lemma QuotientBack(x: real, n: real)
    requires n > 0.0
    ensures x / n * n == x
  {}

  lemma TruncIsWhole(sum: int, n: nat)
    requires n > 0
    ensures WholeQuotient(RealTrunc(sum as real / n as real), sum, n)
  {
    QuotientBack(sum as real, n as real);
    TruncOf(sum as real / n as real, sum, n);
  }

  lemma SignKept(x: real, n: real)
    requires n > 0.0
    ensures x >= 0.0 <==> x * n >= 0.0
    ensures -x * n == -(x * n)
  {}

  lemma TruncOf(x: real, sum: int, n: nat)
    requires n > 0 && x * n as real == sum as real
    ensures WholeQuotient(RealTrunc(x), sum, n)
  {
    SignKept(x, n as real);
    if sum >= 0 {
      FloorBounds(x, sum, n);
    } else {
      FloorBounds(-x, -sum, n);
      var q := (-x).Floor;
      assert (-q - 1) * n == -((q + 1) * n) && -q * n == -(q * n);
    }
  }

  lemma TimesBetween(a: real, x: real, b: real, n: real)
    requires a <= x < b && n > 0.0
    ensures a * n <= x * n < b * n
  {
    assert (b - x) * n > 0.0 && (x - a) * n >= 0.0;
  }

  lemma TimesReal(a: int, n: int)
    ensures (a * n) as real == a as real * n as real
  {}

  lemma WholeBetween(x: real, low: int, high: int, sum: int, n: int)
    requires n > 0 && low as real <= x < high as real && x * n as real == sum as real
    ensures low * n <= sum < high * n
  {
    TimesBetween(low as real, x, high as real, n as real);
    TimesReal(low, n);
    TimesReal(high, n);
  }

  lemma FloorBounds(x: real, sum: int, n: nat)
    requires n > 0 && x * n as real == sum as real
    ensures x.Floor * n <= sum < (x.Floor + 1) * n
  {
    WholeBetween(x, x.Floor, x.Floor + 1, sum, n);
  }

  lemma AverageIsRight(g: seq<Entry>, period: int)
    requires period > 0 && |g| > 0
    ensures RightRow(Average(g, period).row, g, period)
  {
    SumsArePlain(g);
    QuotientBack(TotalBytes(g), |g| as real);
    QuotientBack(TotalPackets(g), |g| as real);
    TruncIsWhole(TotalFlows(g), |g|);
  }

  /** Every row a rollup adds is right about the rows of its bucket. */
  ghost predicate AllRight(es: seq<Entry>, added: seq<Entry>, idx: Index, keys: seq<int>, period: int)
    requires period > 0
  {
    && |added| == |keys|
    && forall i :: 0 <= i < |added| ==> RightRow(added[i].row, Group(es, idx, period, keys[i]), period)
  }

  lemma RollupRowsAreRight(es: seq<Entry>, added: seq<Entry>, idx: Index, keys: seq<int>, period: int)
    requires period > 0 && IsRollup(es, added, idx, keys, period)
    ensures AllRight(es, added, idx, keys, period)
  {
    forall i | 0 <= i < |added|
      ensures RightRow(added[i].row, Group(es, idx, period, keys[i]), period)
    {
      assert IsAverage(added[i], Group(es, idx, period, keys[i]), period);
      AverageIsRight(Group(es, idx, period, keys[i]), period);
    }
  }

  ghost predicate IsAverage(e: Entry, g: seq<Entry>, period: int)
    requires period > 0
  {
    |g| > 0 && e == Average(g, period)
  }

  /** The rows of the buckets `keys`, one average each. */
  ghost predicate Averages(es: seq<Entry>, added: seq<Entry>, idx: Index, keys: seq<int>, period: int)
    requires period > 0
  {
    && |added| == |keys|
    && (forall i :: 0 <= i < |keys| ==> IsAverage(added[i], Group(es, idx, period, keys[i]), period))
  }

  ghost predicate Distinct(keys: seq<int>) {
    forall i, j :: 0 <= i < j < |keys| ==> keys[i] != keys[j]
  }

  /** A list of the members of a set, each once. */
  ghost predicate Drawn(keys: seq<int>, s: set<int>) {
    Distinct(keys) && |keys| == |s| && forall k :: k in keys <==> k in s
  }

  lemma DrawOne(keys: seq<int>, s: set<int>, k: int)
    requires Drawn(keys, s) && k !in s
    ensures Drawn(keys + [k], s + {k})
  {}

  lemma AveragesSnoc(es: seq<Entry>, added: seq<Entry>, idx: Index, keys: seq<int>, period: int, key: int)
    requires period > 0 && Averages(es, added, idx, keys, period) && |Group(es, idx, period, key)| > 0
    ensures Averages(es, added + [Average(Group(es, idx, period, key), period)], idx, keys + [key], period)
  {}

  lemma EmitStep(es: seq<Entry>, added: seq<Entry>, idx: Index, keys: seq<int>, period: int, all: set<int>, rest: set<int>, key: int)
    requires period > 0 && Averages(es, added, idx, keys, period) && |Group(es, idx, period, key)| > 0
    requires Drawn(keys, all - rest) && key in rest && rest <= all
    ensures Averages(es, added + [Average(Group(es, idx, period, key), period)], idx, keys + [key], period)
    ensures Drawn(keys + [key], all - (rest - {key}))
  {
    AveragesSnoc(es, added, idx, keys, period, key);
    DrawOne(keys, all - rest, key);
    assert all - (rest - {key}) == all - rest + {key};
  }

  lemma HasMember(s: set<int>)
    ensures s != {} ==> exists k :: k in s
  {
    if forall k :: k !in s {
      assert s == {};
    }
  }

  lemma AllEmitted(es: seq<Entry>, added: seq<Entry>, idx: Index, keys: seq<int>, period: int, buckets: map<int, Bucket>)
    requires period > 0 && Indexes(idx, es) && BucketsOk(buckets, es, idx, period)
    requires Drawn(keys, buckets.Keys) && Averages(es, added, idx, keys, period)
    ensures IsRollup(es, added, idx, keys, period)
  {
    forall k
      ensures k in keys <==> k in Keys(es, idx, period)
    {
      GroupNonempty(es, idx, period, k);
    }
  }

  /** The insertion loop: one row for each bucket, in whatever order the map yields them. */
  method Emit(es: seq<Entry>, period: int, idx: Index, buckets: map<int, Bucket>) returns (added: seq<Entry>, keys: seq<int>)
    requires period > 0 && Indexes(idx, es) && BucketsOk(buckets, es, idx, period)
    ensures IsRollup(es, added, idx, keys, period) && AllRight(es, added, idx, keys, period)
    ensures |added| == |buckets|
  {
    added, keys := [], [];
    var rest := buckets.Keys;
    while rest != {}
      invariant rest <= buckets.Keys
      invariant Drawn(keys, buckets.Keys - rest)
      invariant Averages(es, added, idx, keys, period)
    {
      HasMember(rest);
      var key :| key in rest;
      var row := MakeRow(buckets[key], Group(es, idx, period, key), period);
      EmitStep(es, added, idx, keys, period, buckets.Keys, rest, key);
      rest := rest - {key};
      added := added + [Entry(row, Lineage(Group(es, idx, period, key)))];
      keys := keys + [key];
    }
    assert buckets.Keys - rest == buckets.Keys;
    AllEmitted(es, added, idx, keys, period, buckets);
    RollupRowsAreRight(es, added, idx, keys, period);
  }
}
