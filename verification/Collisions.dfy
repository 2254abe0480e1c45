/** A run of the history whose rollup mixes the samples of two nodes: the rows of enough
    nodes, two of them at times far apart whose bucket keys wrap to the same number. The
    number of rows is a variable that equals MANY, so that no definition is unfolded that
    often. */
module Collisions {
  import opened TierKeys
  import opened Rollup
  import opened History

  const MANY: nat := 831489
  const LATE: int := 1741090815302 * HOUR
  const EARLY: int := -1741090815301 * HOUR

  function Name(i: nat): string {
    seq(i + 1, _ => 'n')
  }

  /** One row a node; the first and the last of the many share a key. */
  function Sample(i: nat): Row {
    Row(Name(i), if i == 0 then LATE else if i == MANY - 1 then EARLY else 0, 0.0, 0.0, 0)
  }

  function OneRow(i: nat): Entry {
    Entry(Sample(i), multiset{Sample(i)})
  }

  function Crowd(n: nat): seq<Entry> {
    seq(n, i requires 0 <= i < n => OneRow(i))
  }

  lemma CrowdSnoc(n: nat)
    ensures Crowd(n + 1) == Crowd(n) + [OneRow(n)]
  {}

  lemma CrowdOk(n: nat)
    ensures TableOk(Crowd(n), Raw)
  {
    forall i | 0 <= i < n
      ensures EntryOk(Crowd(n)[i], Raw)
    {
      RawOk(Sample(i));
    }
  }

  /** The nodes numbered as they come, from 1. */
  function Numbers(n: nat): Index {
    if n == 0 then map[] else Numbered(Numbers(n - 1), Name(n - 1))
  }

  ghost predicate Short(idx: Index, n: nat) {
    |idx| == n && forall name :: name in idx ==> |name| <= n
  }

  lemma ShortStep(idx: Index, n: nat)
    requires Short(idx, n)
    ensures Name(n) !in idx && Numbered(idx, Name(n)) == idx[Name(n) := n + 1] && Short(idx[Name(n) := n + 1], n + 1)
  {
    assert |Name(n)| == n + 1;
    assert |idx[Name(n) := n + 1]| == |idx| + 1;
  }

  lemma {:induction false} NumbersShort(n: nat)
    ensures Short(Numbers(n), n)
  {
    if n > 0 {
      NumbersShort(n - 1);
      ShortStep(Numbers(n - 1), n - 1);
    }
  }

  lemma IndexStep(es: seq<Entry>, e: Entry, more: seq<Entry>, idx: Index, idx': Index)
    requires Indexes(idx, es) && more == es + [e] && idx' == Numbered(idx, e.row.node)
    ensures Indexes(idx', more)
  {
    NodesSnoc(es, e);
    NumberedIndexes(idx, e.row.node, es, more);
  }

  lemma NoIndex(idx: Index, es: seq<Entry>)
    requires idx == map[] && es == []
    ensures Indexes(idx, es)
  {}

  lemma {:induction false} NumbersIndex(n: nat)
    ensures Indexes(Numbers(n), Crowd(n))
  {
    if n == 0 {
      NoIndex(Numbers(n), Crowd(n));
    } else {
      NumbersIndex(n - 1);
      CrowdSnoc(n - 1);
      assert OneRow(n - 1).row.node == Name(n - 1);
      IndexStep(Crowd(n - 1), OneRow(n - 1), Crowd(n), Numbers(n - 1), Numbers(n));
    }
  }

  lemma {:induction false} NumberOf(n: nat, i: nat)
    requires i < n
    ensures Name(i) in Numbers(n) && Numbers(n)[Name(i)] == i + 1
  {
    NumbersShort(n - 1);
    ShortStep(Numbers(n - 1), n - 1);
    if i < n - 1 {
      NumberOf(n - 1, i);
    }
  }

  lemma {:induction false} Listed(s: set<int>) returns (keys: seq<int>)
    ensures Drawn(keys, s)
    decreases |s|
  {
    if s == {} {
      keys := [];
    } else {
      HasMember(s);
      var k :| k in s;
      keys := Listed(s - {k});
      DrawOne(keys, s - {k}, k);
      assert s - {k} + {k} == s;
      keys := keys + [k];
    }
  }

  /** Whatever the rows and the numbering, there is a rollup of them. */
  lemma RollupExists(es: seq<Entry>, idx: Index, period: int) returns (added: seq<Entry>, keys: seq<int>)
    requires period > 0 && Indexes(idx, es)
    ensures IsRollup(es, added, idx, keys, period)
  {
    keys := Listed(Keys(es, idx, period));
    forall i | 0 <= i < |keys|
      ensures |Group(es, idx, period, keys[i])| > 0
    {
      GroupNonempty(es, idx, period, keys[i]);
    }
    added := seq(|keys|, i requires 0 <= i < |keys| => Average(Group(es, idx, period, keys[i]), period));
  }

  lemma KeyIn(n: nat, i: nat, aligned: int)
    requires i < n && aligned == Align(Sample(i).ts, HOUR)
    ensures KeyOf(Crowd(n)[i], Numbers(n), HOUR) == PackedKey(aligned, i + 1)
  {
    NumberOf(n, i);
  }

  lemma KeysMeet(n: nat)
    requires n == MANY
    ensures KeyOf(Crowd(n)[0], Numbers(n), HOUR) == KeyOf(Crowd(n)[n - 1], Numbers(n), HOUR)
  {
    var late, early := Align(Sample(0).ts, HOUR), Align(Sample(n - 1).ts, HOUR);
    KeyIn(n, 0, late);
    KeyIn(n, n - 1, early);
    Meet(late, early);
  }

  lemma Meet(late: int, early: int)
    requires late == Align(LATE, HOUR) && early == Align(EARLY, HOUR)
    ensures PackedKey(late, 1) == PackedKey(early, MANY)
  {
    ManyNodesCanCollide();
  }

  lemma NodesDiffer(n: nat, i: nat, j: nat)
    requires i < j < n
    ensures Crowd(n)[i].row.node != Crowd(n)[j].row.node
  {
    assert |Name(i)| != |Name(j)|;
  }

  lemma Collides(es: seq<Entry>, idx: Index, t: Tier, i: nat, j: nat)
    requires Indexes(idx, es) && i < |es| && j < |es| && es[i].row.node != es[j].row.node
    requires KeyOf(es[i], idx, Period(t)) == KeyOf(es[j], idx, Period(t))
    ensures !NoCollision(es, idx, t)
  {
    assert SameKey(es, idx, t, i, j);
  }

  lemma CrowdCollides(n: nat, t: Tier)
    requires n == MANY && t == Hourly && Indexes(Numbers(n), Crowd(n))
    ensures !NoCollision(Crowd(n), Numbers(n), t)
  {
    KeysMeet(n);
    NodesDiffer(n, 0, n - 1);
    Collides(Crowd(n), Numbers(n), t, 0, n - 1);
  }

  /** The rollup of these rows, all of them right, gives a wrong row. */
  lemma CollidingRollup(n: nat) returns (added: seq<Entry>, keys: seq<int>)
    requires n == MANY
    ensures TableOk(Crowd(n), Raw) && IsRollup(Crowd(n), added, Numbers(n), keys, HOUR)
    ensures !TableOk(added, Hourly)
  {
    CrowdOk(n);
    NumbersIndex(n);
    CrowdCollides(n, Hourly);
    added, keys := RollupExists(Crowd(n), Numbers(n), HOUR);
    AttributionIff(Crowd(n), added, Numbers(n), keys, Hourly);
  }

  lemma {:induction false} Inserts(n: nat) returns (states: seq<Tiers>, steps: seq<Step>)
    ensures IsRun(states, steps) && |steps| == n && states[n] == Tiers(Crowd(n), [], [], [])
    ensures forall i :: 0 <= i < n ==> steps[i] == Insert(Sample(i))
  {
    if n == 0 {
      states, steps := [Tiers([], [], [], [])], [];
    } else {
      states, steps := Inserts(n - 1);
      CrowdSnoc(n - 1);
      RunSnoc(states, steps, Insert(Sample(n - 1)), Tiers(Crowd(n), [], [], []));
      states, steps := states + [Tiers(Crowd(n), [], [], [])], steps + [Insert(Sample(n - 1))];
    }
  }

  lemma RunSnoc(states: seq<Tiers>, steps: seq<Step>, step: Step, after: Tiers)
    requires IsRun(states, steps) && Follows(states[|steps|], step, after)
    ensures IsRun(states + [after], steps + [step])
  {
    var longer, more := states + [after], steps + [step];
    forall i | 0 <= i < |more|
      ensures Follows(longer[i], more[i], longer[i + 1])
    {
      if i < |steps| {
        assert longer[i] == states[i] && longer[i + 1] == states[i + 1] && more[i] == steps[i];
      }
    }
  }

  lemma CrowdPast(n: nat)
    ensures Select(Crowd(n), LATE + 1, true) == Crowd(n)
  {
    AllPicked(Crowd(n), LATE + 1, true);
  }

  lemma WrongAfter(n: nat) returns (after: Tiers)
    requires n == MANY
    ensures Follows(Tiers(Crowd(n), [], [], []), RollUp(Hourly, LATE + 1), after) && !TiersOk(after)
  {
    var added, keys := CollidingRollup(n);
    var before := Tiers(Crowd(n), [], [], []);
    CrowdPast(n);
    after := Moved(before, Hourly, Select(Crowd(n), LATE + 1, false), added);
    assert At(before, Finer(Hourly)) == Crowd(n);
    assert IsRollup(Select(At(before, Finer(Hourly)), LATE + 1, true), added, Numbers(n), keys, Period(Hourly));
    assert At(after, Hourly) == [] + added == added;
    assert !TableOk(At(after, Hourly), Hourly);
  }

  /** From nothing: insert one row a node, at 64-bit times, and roll up once. All was right
      before the rollup, and is not after it. */
  lemma CollidingRun(n: nat) returns (states: seq<Tiers>, steps: seq<Step>)
    requires n == MANY
    ensures IsRun(states, steps) && |steps| == n + 1
    ensures (forall i :: 0 <= i < n ==> steps[i] == Insert(Sample(i))) && steps[n] == RollUp(Hourly, LATE + 1)
    ensures TiersOk(states[n]) && !TiersOk(states[n + 1])
  {
    states, steps := Inserts(n);
    CrowdOk(n);
    RawOnly(Crowd(n));
    var after := WrongAfter(n);
    RunSnoc(states, steps, RollUp(Hourly, LATE + 1), after);
    states, steps := states + [after], steps + [RollUp(Hourly, LATE + 1)];
  }

  lemma RawOnly(es: seq<Entry>)
    requires TableOk(es, Raw)
    ensures TiersOk(Tiers(es, [], [], []))
  {
    forall t
      ensures TableOk(At(Tiers(es, [], [], []), t), t)
    {
      if t != Raw {
        assert At(Tiers(es, [], [], []), t) == [];
      }
    }
  }
}
