/** The TCP tracker's loss counter: one direction of a flow, by 32-bit sequence numbers. */
module TcpSequences {
  import opened FlowKeys

  const LIMIT: int := 0x1_0000_0000

  /** A segment that uses up sequence numbers: `used` counts its bytes, SYN and FIN. */
  datatype Segment = Segment(seqNum: nat, used: nat)

  /** The largest end seen so far, 0 before any; and the two counters. */
  datatype Direction = Direction(seqMax: nat, expected: nat, lost: nat)

  const FRESH := Direction(0, 0, 0)

  predicate InRange(g: Segment) {
    g.seqNum < LIMIT && 0 < g.used < LIMIT
  }

  function End(g: Segment): nat {
    (g.seqNum + g.used) % LIMIT
  }

  function Seen(d: Direction, g: Segment): Direction {
    if d.seqMax == 0 then Direction(End(g), d.expected + 1, d.lost)
    else Direction(if End(g) > d.seqMax then End(g) else d.seqMax, d.expected + 1,
                   d.lost + if g.seqNum != d.seqMax then 1 else 0)
  }

  /** The tracker's own form, on a segment's length and flags; a bare ACK is skipped. */
  method UpdateSeqDirection(d: Direction, seqNum: nat, length: nat, syn: bool, fin: bool) returns (r: Direction)
    requires seqNum < LIMIT && length < LIMIT - 2
    ensures var used := length + (if syn then 1 else 0) + if fin then 1 else 0;
            r == if used == 0 then d else Seen(d, Segment(seqNum, used))
  {
    if length == 0 && !syn && !fin {
      return d;
    }
    var used := length;
    if syn {
      used := used + 1;
    }
    if fin {
      used := used + 1;
    }
    r := d;
    if r.seqMax == 0 {
      return Direction((seqNum + used) % LIMIT, r.expected + 1, r.lost);
    }
    if seqNum < r.seqMax {
      r := r.(lost := r.lost + 1);
    } else if seqNum > r.seqMax {
      r := r.(lost := r.lost + 1);
    }
    r := r.(expected := r.expected + 1);
    if (seqNum + used) % LIMIT > r.seqMax {
      r := r.(seqMax := (seqNum + used) % LIMIT);
    }
  }

  function Run(gs: seq<Segment>): Direction {
    if gs == [] then FRESH else Seen(Run(gs[..|gs| - 1]), gs[|gs| - 1])
  }

  /** Whatever arrives: never all segments count as lost, so the loss stays below 100%. */
  lemma {:induction false} NeverAllLost(gs: seq<Segment>)
    ensures Run(gs).expected == |gs| && (gs != [] ==> Run(gs).lost < |gs|)
  {
    if gs != [] {
      NeverAllLost(gs[..|gs| - 1]);
    }
  }

  // ---- Runs whose numbers do not wrap ----

  predicate Unwrapped(gs: seq<Segment>) {
    forall i :: 0 <= i < |gs| ==> 0 < gs[i].used && gs[i].seqNum + gs[i].used < LIMIT
  }

  /** The first number none of the segments has reached. */
  function LargestEnd(gs: seq<Segment>): (end: nat)
    requires gs != []
    ensures forall i :: 0 <= i < |gs| ==> gs[i].seqNum + gs[i].used <= end
    ensures exists i :: 0 <= i < |gs| && gs[i].seqNum + gs[i].used == end
  {
    var n := |gs| - 1;
    var end := gs[n].seqNum + gs[n].used;
    if n == 0 then end
    else
      var before := LargestEnd(gs[..n]);
      assert forall i :: 0 <= i < n ==> gs[..n][i] == gs[i];
      if before > end then before else end
  }

  /** The segments that do not begin where all before them left off. */
  ghost function Misplaced(gs: seq<Segment>): set<nat> {
    set i: nat | 0 < i < |gs| && gs[i].seqNum != LargestEnd(gs[..i])
  }

  lemma MisplacedSnoc(gs: seq<Segment>)
    requires |gs| > 1
    ensures var n := |gs| - 1;
            Misplaced(gs) == Misplaced(gs[..n]) + if gs[n].seqNum != LargestEnd(gs[..n]) then {n} else {}
  {
    var n := |gs| - 1;
    var before := gs[..n];
    forall i: nat | 0 < i < n ensures i in Misplaced(gs) <==> i in Misplaced(before) {
      assert before[..i] == gs[..i] && before[i] == gs[i];
    }
  }

  lemma LargestSnoc(gs: seq<Segment>)
    requires |gs| > 1
    ensures var n := |gs| - 1;
            LargestEnd(gs) == if LargestEnd(gs[..n]) > gs[n].seqNum + gs[n].used then LargestEnd(gs[..n]) else gs[n].seqNum + gs[n].used
  {}

  lemma SeenUnwrapped(d: Direction, g: Segment)
    requires 0 < g.used && g.seqNum + g.used < LIMIT
    ensures d.seqMax == 0 ==> Seen(d, g) == Direction(g.seqNum + g.used, d.expected + 1, d.lost)
    ensures d.seqMax != 0 ==>
              && Seen(d, g).seqMax == (if d.seqMax > g.seqNum + g.used then d.seqMax else g.seqNum + g.used)
              && Seen(d, g).lost == d.lost + if g.seqNum != d.seqMax then 1 else 0
  {}

  lemma LargestPositive(gs: seq<Segment>)
    requires gs != [] && Unwrapped(gs)
    ensures LargestEnd(gs) > 0
  {
    assert gs[0].seqNum + gs[0].used <= LargestEnd(gs);
  }

  lemma LostOne(gs: seq<Segment>)
    requires |gs| == 1 && Unwrapped(gs)
    ensures Run(gs).lost == |Misplaced(gs)| && Run(gs).seqMax == LargestEnd(gs)
  {
    assert Run(gs[..0]) == FRESH && Misplaced(gs) == {};
    SeenUnwrapped(FRESH, gs[0]);
  }

  /** Without a wrap and in any order: lost are exactly the segments after the first whose
      number is not the largest end of all earlier ones, be they behind it or beyond it. */
  lemma {:induction false} LostIsMisplaced(gs: seq<Segment>)
    requires gs != [] && Unwrapped(gs)
    ensures Run(gs).lost == |Misplaced(gs)| && Run(gs).seqMax == LargestEnd(gs)
  {
    var n := |gs| - 1;
    if n == 0 {
      LostOne(gs);
    } else {
      var before := gs[..n];
      LostIsMisplaced(before);
      LargestPositive(before);
      SeenUnwrapped(Run(before), gs[n]);
      LargestSnoc(gs);
      MisplacedSnoc(gs);
      assert n !in Misplaced(before);
    }
  }

  /** Segments in order, none overlapping the one before. */
  predicate Ordered(gs: seq<Segment>) {
    forall i, j :: 0 <= i < j < |gs| ==> gs[i].seqNum + gs[i].used <= gs[j].seqNum
  }

  /** Numbers are missing just before this segment. */
  predicate GapBefore(gs: seq<Segment>, i: nat)
    requires 0 < i < |gs|
  {
    gs[i - 1].seqNum + gs[i - 1].used < gs[i].seqNum
  }

  lemma {:induction false} LastEndsLast(gs: seq<Segment>)
    requires gs != [] && Unwrapped(gs) && Ordered(gs)
    ensures LargestEnd(gs) == gs[|gs| - 1].seqNum + gs[|gs| - 1].used
  {
    if |gs| > 1 {
      LastEndsLast(gs[..|gs| - 1]);
    }
  }

  lemma GapIff(gs: seq<Segment>, i: nat)
    requires 0 < i < |gs| && Unwrapped(gs) && Ordered(gs)
    ensures gs[i].seqNum != LargestEnd(gs[..i]) <==> GapBefore(gs, i)
  {
    var before := gs[..i];
    assert forall k :: 0 <= k < i ==> before[k] == gs[k];
    assert Unwrapped(before) && Ordered(before);
    LastEndsLast(before);
    assert before[i - 1] == gs[i - 1];
  }

  /** Then lost are exactly the gaps. */
  lemma LostIsGaps(gs: seq<Segment>)
    requires Unwrapped(gs) && Ordered(gs)
    ensures Run(gs).lost == |set i: nat | 0 < i < |gs| && GapBefore(gs, i)|
  {
    var gaps := set i: nat | 0 < i < |gs| && GapBefore(gs, i);
    if gs == [] {
      assert gaps == {};
    } else {
      LostIsMisplaced(gs);
      forall i: nat | 0 < i < |gs| ensures gs[i].seqNum != LargestEnd(gs[..i]) <==> GapBefore(gs, i) {
        GapIff(gs, i);
      }
      assert Misplaced(gs) == gaps;
    }
  }

  /** Each direction of a flow has a sequence maximum of its own: which end counts as the
      first is read off the printed endpoints. */
  lemma DirectionsDiffer(a: Endpoint, b: Endpoint)
    requires a != b
    ensures Less(Show(a), Show(b)) != Less(Show(b), Show(a))
  {
    if Show(a) == Show(b) {
      ShowInjective(a, b);
    }
    LessTotal(Show(a), Show(b));
  }

  // ---- Runs without a gap ----

  /** Segments sent one after the other from `start`, before the numbers are cut to 32 bits. */
  function Sent(start: nat, sizes: seq<nat>): nat {
    if sizes == [] then start else Sent(start, sizes[..|sizes| - 1]) + sizes[|sizes| - 1]
  }

  ghost predicate Gapless(gs: seq<Segment>, start: nat, sizes: seq<nat>) {
    && |gs| == |sizes|
    && forall i {:trigger gs[i]} :: 0 <= i < |gs| ==> InRange(gs[i]) && gs[i] == Segment(Sent(start, sizes[..i]) % LIMIT, sizes[i])
  }

  lemma {:induction false} SentGrows(start: nat, sizes: seq<nat>, i: nat)
    requires i <= |sizes|
    ensures start <= Sent(start, sizes[..i]) <= Sent(start, sizes)
    ensures i > 0 && sizes[0] > 0 ==> start < Sent(start, sizes[..i])
  {
    if i < |sizes| {
      SentGrows(start, sizes[..|sizes| - 1], i);
      assert sizes[..|sizes| - 1][..i] == sizes[..i];
    } else {
      assert sizes[..i] == sizes;
      if i > 1 {
        SentGrows(start, sizes[..i - 1], i - 1);
        assert sizes[..i - 1][..i - 1] == sizes[..i - 1];
      } else if i == 1 {
        assert sizes[..0] == [];
      }
    }
  }

  ghost predicate InEpoch(x: nat, epoch: nat) {
    epoch * LIMIT <= x < (epoch + 1) * LIMIT
  }

  lemma EachInOne(x: nat)
    ensures exists epoch :: InEpoch(x, epoch)
  {
    assert InEpoch(x, x / LIMIT);
  }

  ghost function Epoch(x: nat): (epoch: nat)
    ensures InEpoch(x, epoch)
  {
    EachInOne(x);
    var epoch :| InEpoch(x, epoch);
    epoch
  }

  /** Where the stretch of 32-bit numbers ends in which the first segment ended. */
  ghost function EpochEnd(start: nat, sizes: seq<nat>): nat
    requires sizes != []
  {
    (Epoch(start + sizes[0]) + 1) * LIMIT
  }

  /** The state after a run without a gap up to `end`, whose last segment began at `begun`:
      in step up to the end of the epoch, and then stuck ahead of the numbers. */
  ghost predicate InStep(d: Direction, epoch: nat, begun: nat, end: nat) {
    if begun >= (epoch + 1) * LIMIT then d.lost > 0
    else
      && d.lost == 0
      && if end < (epoch + 1) * LIMIT then d.seqMax == end - epoch * LIMIT
         else 0 <= end - (epoch + 1) * LIMIT < d.seqMax < LIMIT
  }

  lemma AddModulo(x: nat, y: nat)
    ensures (x % LIMIT + y) % LIMIT == (x + y) % LIMIT
  {}

  lemma Modulo(x: nat, epoch: nat)
    requires InEpoch(x, epoch)
    ensures x % LIMIT == x - epoch * LIMIT
  {}

  lemma StepInStep(d: Direction, epoch: nat, begun: nat, end: nat, size: nat)
    requires InStep(d, epoch, begun, end) && 0 < size < LIMIT && epoch * LIMIT <= end && begun <= end
    ensures InStep(Seen(d, Segment(end % LIMIT, size)), epoch, end, end + size)
  {
    if begun >= (epoch + 1) * LIMIT {
      assert Seen(d, Segment(end % LIMIT, size)).lost >= d.lost;
    } else if end >= (epoch + 1) * LIMIT {
      Modulo(end, epoch + 1);
    } else {
      Modulo(end, epoch);
      if end + size < (epoch + 1) * LIMIT {
        Modulo(end + size, epoch);
      } else {
        Modulo(end + size, epoch + 1);
      }
      AddModulo(end, size);
    }
  }

  lemma {:induction false} FirstEnds(start: nat, sizes: seq<nat>)
    requires sizes != []
    ensures start + sizes[0] <= Sent(start, sizes)
  {
    if |sizes| == 1 {
      assert sizes[..0] == [];
    } else {
      FirstEnds(start, sizes[..|sizes| - 1]);
    }
  }

  lemma AllSend(gs: seq<Segment>, start: nat, sizes: seq<nat>)
    requires Gapless(gs, start, sizes)
    ensures forall i :: 0 <= i < |sizes| ==> 0 < sizes[i] < LIMIT
  {
    forall i | 0 <= i < |sizes| ensures 0 < sizes[i] < LIMIT {
      assert InRange(gs[i]);
    }
  }

  lemma GaplessPrefix(gs: seq<Segment>, start: nat, sizes: seq<nat>)
    requires gs != [] && Gapless(gs, start, sizes)
    ensures Gapless(gs[..|gs| - 1], start, sizes[..|gs| - 1])
    ensures gs[|gs| - 1] == Segment(Sent(start, sizes[..|gs| - 1]) % LIMIT, sizes[|gs| - 1])
  {
    assert forall i :: 0 <= i < |gs| ==> sizes[..|gs| - 1][..i] == sizes[..i];
  }

  lemma FirstInStep(g: Segment, start: nat, epoch: nat)
    requires InRange(g) && g.seqNum == start % LIMIT && InEpoch(start + g.used, epoch)
    ensures InStep(Seen(FRESH, g), epoch, start, start + g.used)
  {
    Modulo(start + g.used, epoch);
    AddModulo(start, g.used);
  }

  lemma {:induction false} GaplessRun(gs: seq<Segment>, start: nat, sizes: seq<nat>, epoch: nat)
    requires gs != [] && Gapless(gs, start, sizes) && InEpoch(start + sizes[0], epoch)
    ensures InStep(Run(gs), epoch, Sent(start, sizes[..|gs| - 1]), Sent(start, sizes))
  {
    var n := |gs| - 1;
    GaplessPrefix(gs, start, sizes);
    if n == 0 {
      assert gs[..0] == [] && sizes[..0] == [];
      FirstInStep(gs[0], start, epoch);
    } else {
      var rest := sizes[..n];
      GaplessRun(gs[..n], start, rest, epoch);
      FirstEnds(start, rest);
      assert Run(gs) == Seen(Run(gs[..n]), gs[n]) && Sent(start, sizes) == Sent(start, rest) + sizes[n];
      StepInStep(Run(gs[..n]), epoch, Sent(start, rest[..n - 1]), Sent(start, rest), sizes[n]);
    }
  }

  /** Some later segment begins at `bound` or beyond exactly when the last one does. */
  lemma LastBeginsLast(start: nat, sizes: seq<nat>, bound: int)
    requires sizes != []
    ensures |sizes| == 1 || Sent(start, sizes[..|sizes| - 1]) < bound <==> forall i :: 0 < i < |sizes| ==> Sent(start, sizes[..i]) < bound
  {
    var rest := sizes[..|sizes| - 1];
    forall i | 0 < i < |sizes| ensures Sent(start, sizes[..i]) <= Sent(start, rest) {
      SentGrows(start, rest, i);
      assert rest[..i] == sizes[..i];
    }
  }

  /** Without a gap nothing should count as lost. On runs of any length that holds exactly
      when no later segment begins beyond the epoch in which the first one ended. */
  lemma GaplessCountsNothingIff(gs: seq<Segment>, start: nat, sizes: seq<nat>)
    requires gs != [] && Gapless(gs, start, sizes)
    ensures Run(gs).lost == 0 <==> forall i :: 0 < i < |gs| ==> Sent(start, sizes[..i]) < EpochEnd(start, sizes)
  {
    LastDecides(gs, start, sizes, Epoch(start + sizes[0]));
    LastBeginsLast(start, sizes, EpochEnd(start, sizes));
  }

  lemma LastDecides(gs: seq<Segment>, start: nat, sizes: seq<nat>, epoch: nat)
    requires gs != [] && Gapless(gs, start, sizes) && InEpoch(start + sizes[0], epoch)
    ensures Run(gs).lost == 0 <==> |gs| == 1 || Sent(start, sizes[..|gs| - 1]) < (epoch + 1) * LIMIT
  {
    GaplessRun(gs, start, sizes, epoch);
    assert |gs| == 1 ==> sizes[..0] == [];
  }

  /** How many segments begin at `bound` or beyond. */
  function Beyond(start: nat, sizes: seq<nat>, bound: nat): nat {
    if |sizes| == 0 then 0
    else
      var rest := sizes[..|sizes| - 1];
      Beyond(start, rest, bound) + if Sent(start, rest) >= bound then 1 else 0
  }

  /** Within one lap: stuck at a maximum that the numbers do not reach again. */
  ghost predicate InLap(d: Direction, epoch: nat, start: nat, end: nat, count: nat) {
    d.lost == count && if end < (epoch + 1) * LIMIT then d.seqMax == end - epoch * LIMIT else start - epoch * LIMIT < d.seqMax < LIMIT
  }

  lemma StepInLap(d: Direction, epoch: nat, start: nat, end: nat, count: nat, size: nat)
    requires InLap(d, epoch, start, end, count) && 0 < size < LIMIT
    requires epoch * LIMIT <= start < end && end + size < start + LIMIT && start < (epoch + 1) * LIMIT
    ensures InLap(Seen(d, Segment(end % LIMIT, size)), epoch, start, end + size, count + if end >= (epoch + 1) * LIMIT then 1 else 0)
  {
    if end >= (epoch + 1) * LIMIT {
      Modulo(end, epoch + 1);
      Modulo(end + size, epoch + 1);
    } else {
      Modulo(end, epoch);
      if end + size < (epoch + 1) * LIMIT {
        Modulo(end + size, epoch);
      } else {
        Modulo(end + size, epoch + 1);
      }
    }
    AddModulo(end, size);
  }

  lemma {:induction false} GaplessLap(gs: seq<Segment>, start: nat, sizes: seq<nat>, epoch: nat)
    requires gs != [] && Gapless(gs, start, sizes) && Sent(start, sizes) < start + LIMIT
    requires InEpoch(start + sizes[0], epoch) && epoch * LIMIT <= start
    ensures InLap(Run(gs), epoch, start, Sent(start, sizes), Beyond(start, sizes, (epoch + 1) * LIMIT))
  {
    var n := |gs| - 1;
    GaplessPrefix(gs, start, sizes);
    if n == 0 {
      assert gs[..0] == [] && sizes[..0] == [];
      FirstInStep(gs[0], start, epoch);
    } else {
      var rest := sizes[..n];
      AllSend(gs, start, sizes);
      SentGrows(start, sizes, n);
      GaplessLap(gs[..n], start, rest, epoch);
      FirstEnds(start, rest);
      StepInLap(Run(gs[..n]), epoch, start, Sent(start, rest), Beyond(start, rest, (epoch + 1) * LIMIT), sizes[n]);
    }
  }

  lemma {:induction false} NoneBeyond(start: nat, sizes: seq<nat>, bound: nat)
    requires Sent(start, sizes) <= bound && forall i :: 0 <= i < |sizes| ==> sizes[i] > 0
    ensures Beyond(start, sizes, bound) == 0
  {
    if sizes != [] {
      NoneBeyond(start, sizes[..|sizes| - 1], bound);
    }
  }

  /** Until the numbers have gone once around, it is every segment beyond that counts. */
  lemma OneLapCounts(gs: seq<Segment>, start: nat, sizes: seq<nat>)
    requires gs != [] && Gapless(gs, start, sizes) && Sent(start, sizes) < start + LIMIT
    ensures Run(gs).lost == Beyond(start, sizes, EpochEnd(start, sizes))
  {
    OneLapIn(gs, start, sizes, Epoch(start + sizes[0]));
  }

  lemma OneLapIn(gs: seq<Segment>, start: nat, sizes: seq<nat>, epoch: nat)
    requires gs != [] && Gapless(gs, start, sizes) && Sent(start, sizes) < start + LIMIT
    requires InEpoch(start + sizes[0], epoch)
    ensures Run(gs).lost == Beyond(start, sizes, (epoch + 1) * LIMIT)
  {
    if epoch * LIMIT <= start {
      GaplessLap(gs, start, sizes, epoch);
    } else {
      AllSend(gs, start, sizes);
      NoneBeyond(start, sizes, (epoch + 1) * LIMIT);
      GaplessRun(gs, start, sizes, epoch);
      SentGrows(start, sizes, |gs| - 1);
    }
  }

  /** Three segments without a gap, across the wrap, of which the last counts as lost. */
  lemma WrapCounts()
    ensures Run([Segment(LIMIT - 2, 1), Segment(LIMIT - 1, 2), Segment(1, 1)]).lost == 1
  {
    var gs := [Segment(LIMIT - 2, 1), Segment(LIMIT - 1, 2), Segment(1, 1)];
    assert gs[..2] == [gs[0], gs[1]] && gs[..2][..1] == [gs[0]] && [gs[0]][..0] == [];
    assert Run([gs[0]]) == Seen(FRESH, gs[0]) && Run(gs[..2]) == Seen(Run([gs[0]]), gs[1]);
  }
}
