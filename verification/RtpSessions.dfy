/** Sessions of RTP packets: loss from 16-bit sequence numbers, jitter, and the bounded table. */
module RtpSessions {
  import opened Options

  datatype Packet = Packet(ssrc: nat, seqNum: nat, timestamp: nat, size: nat, arrival: real, codec: string)

  /** A session; times are in milliseconds. */
  datatype Session = Session(lastSeq: nat, packets: nat, bytes: nat, lost: nat,
                             totalJitter: real, maxJitter: real, interJitter: real,
                             lastTimestamp: nat, lastArrival: Option<real>, lastSeen: real, codec: string)

  /** The field widths of the packets. */
  predicate InRange(p: Packet) {
    p.seqNum < 0x1_0000 && p.timestamp < 0x1_0000_0000
  }

  function Opened(p: Packet): Session {
    Session(p.seqNum, 1, p.size, 0, 0.0, 0.0, 0.0, 0, None, p.arrival, p.codec)
  }

  /** A 32-bit difference, read as signed. */
  function SignedDifference(a: nat, b: nat): int {
    var d := (a - b) % 0x1_0000_0000;
    if d < 0x8000_0000 then d else d - 0x1_0000_0000
  }

  /** How far the spacing of two packets on arrival is from their spacing when sent. */
  function Deviation(s: Session, p: Packet): real
    requires s.lastArrival.Some?
  {
    var sent := SignedDifference(p.timestamp, s.lastTimestamp) as real / 8.0;
    var d := p.arrival - s.lastArrival.value - if sent < 0.0 then sent + 65536.0 / 8.0 else sent;
    if d < 0.0 then -d else d
  }

  function WithJitter(s: Session, p: Packet): Session {
    if s.lastArrival.None? || s.lastTimestamp == 0 then s
    else
      var d := Deviation(s, p);
      s.(interJitter := s.interJitter + (d - s.interJitter) / 16.0,
         maxJitter := if d > s.maxJitter then d else s.maxJitter,
         totalJitter := s.totalJitter + d)
  }

  /** What the counter of lost packets grows by, from the last number and the new one. */
  function Loss(last: nat, seqNum: nat): nat
    requires last < 0x1_0000
  {
    var expected := (last + 1) % 0x1_0000;
    var gap := seqNum - expected;
    if last == 0 then 0
    else if gap > 0 then gap
    else if gap < -32768 then 65536 - expected + seqNum
    else 0
  }

  function Received(s: Session, p: Packet): Session
    requires s.lastSeq < 0x1_0000
  {
    WithJitter(s, p).(packets := s.packets + 1, bytes := s.bytes + p.size, lastSeen := p.arrival,
                      lastArrival := Some(p.arrival), lastTimestamp := p.timestamp,
                      lost := s.lost + Loss(s.lastSeq, p.seqNum), lastSeq := p.seqNum)
  }

  /** The session after some packets, oldest first. */
  function Run(ps: seq<Packet>): (s: Session)
    requires |ps| > 0 && forall i :: 0 <= i < |ps| ==> InRange(ps[i])
    ensures s.lastSeq == ps[|ps| - 1].seqNum && s.packets == |ps|
  {
    if |ps| == 1 then Opened(ps[0]) else Received(Run(ps[..|ps| - 1]), ps[|ps| - 1])
  }

  /** Sent packets numbered without wrapping, in order, with at most 32767 missing between
      two that arrive. */
  predicate InOrder(numbers: seq<nat>) {
    forall i :: 0 <= i < |numbers| - 1 ==> numbers[i] < numbers[i + 1] <= numbers[i] + 32768
  }

  ghost predicate Carries(ps: seq<Packet>, numbers: seq<nat>) {
    |ps| == |numbers| && forall i :: 0 <= i < |ps| ==> InRange(ps[i]) && ps[i].seqNum == numbers[i] % 0x1_0000
  }

  function Gap(last: int, next: int): int {
    next - last - 1
  }

  /** Missing packets directly after one whose number is 0 on the wire. */
  function MissedAfterZero(numbers: seq<nat>): int {
    if |numbers| < 2 then 0
    else
      var n := |numbers| - 1;
      MissedAfterZero(numbers[..n])
      + if numbers[n - 1] % 0x1_0000 == 0 then Gap(numbers[n - 1], numbers[n]) else 0
  }

  function Missing(numbers: seq<nat>): int
    requires |numbers| > 0
  {
    numbers[|numbers| - 1] - numbers[0] + 1 - |numbers|
  }

  /** The number on the wire after some are missing: so many on from the expected one, less the
      turns in between. */
  lemma Turns(last: nat, missing: nat) returns (expected: nat, turns: nat)
    ensures expected == (last + 1) % 0x1_0000 == (last % 0x1_0000 + 1) % 0x1_0000
    ensures (last + 1 + missing) % 0x1_0000 == expected + missing - turns * 0x1_0000
    ensures turns == 0 <==> expected + missing < 0x1_0000
  {
    expected := (last + 1) % 0x1_0000;
    turns := (expected + missing) / 0x1_0000;
    assert (last + 1 + missing) % 0x1_0000 == (expected + missing) % 0x1_0000;
  }

  /** Exactly when the counter is right about one gap, of any size. */
  lemma GapCountedIff(last: nat, missing: nat)
    ensures Loss(last % 0x1_0000, (last + 1 + missing) % 0x1_0000) == missing
            <==> (missing == 0
                  || (last % 0x1_0000 != 0
                      && (missing <= 32767 || (last + 1) % 0x1_0000 + missing < 0x1_0000)))
  {
    var expected, turns := Turns(last, missing);
    LossByTurns(last % 0x1_0000, expected, missing, turns);
  }

  lemma LossByTurns(last: nat, expected: nat, missing: nat, turns: nat)
    requires last < 0x1_0000 && expected == (last + 1) % 0x1_0000
    requires 0 <= expected + missing - turns * 0x1_0000 < 0x1_0000
    ensures Loss(last, expected + missing - turns * 0x1_0000) == missing
            <==> missing == 0 || (last != 0 && (missing <= 32767 || turns == 0))
  {
    if turns >= 2 {
      assert missing > 0x1_0000;
    }
  }

  lemma LossInOrder(last: nat, next: nat)
    requires last < next <= last + 32768
    ensures Loss(last % 0x1_0000, next % 0x1_0000) == if last % 0x1_0000 == 0 then 0 else next - last - 1
  {
    GapCountedIff(last, next - last - 1);
  }

  /** On an in-order run, across any number of wraps, the counter is the number of missing
      packets, apart from those directly after a packet numbered 0. */
  lemma {:induction false} LossOverRun(ps: seq<Packet>, numbers: seq<nat>)
    requires |ps| > 0 && Carries(ps, numbers) && InOrder(numbers)
    ensures Run(ps).lost == Missing(numbers) - MissedAfterZero(numbers)
    ensures 0 <= MissedAfterZero(numbers)
  {
    if |ps| > 1 {
      var n := |ps| - 1;
      LossOverRun(ps[..n], numbers[..n]);
      LossInOrder(numbers[n - 1], numbers[n]);
    }
  }

  /** What a packet that is late, or a copy of the last, adds: nothing, unless the numbers
      wrapped between the two; then nearly the whole number space. */
  lemma LateLoss(last: nat, late: nat)
    requires late <= last <= late + 32767
    ensures Loss(last % 0x1_0000, late % 0x1_0000)
         == if last % 0x1_0000 == 0 || (last + 1) / 0x1_0000 == late / 0x1_0000 then 0 else 65535 - (last - late)
  {
    assert (last + 1) % 0x1_0000 == (last % 0x1_0000 + 1) % 0x1_0000;
    assert late == late / 0x1_0000 * 0x1_0000 + late % 0x1_0000;
    assert last + 1 == (last + 1) / 0x1_0000 * 0x1_0000 + (last + 1) % 0x1_0000;
  }

  /** Exactly when a late packet adds nothing. */
  lemma LateAddsNothingIff(last: nat, late: nat)
    requires late <= last <= late + 32767
    ensures Loss(last % 0x1_0000, late % 0x1_0000) == 0
            <==> last % 0x1_0000 == 0 || (last + 1) / 0x1_0000 == late / 0x1_0000
  {
    LateLoss(last, late);
  }

  lemma TwoMore(ps: seq<Packet>, q: Packet, r: Packet)
    requires |ps| > 0 && (forall i :: 0 <= i < |ps| ==> InRange(ps[i])) && InRange(q) && InRange(r)
    ensures Run(ps + [q, r]).lost == Run(ps).lost + Loss(Run(ps).lastSeq, q.seqNum) + Loss(q.seqNum, r.seqNum)
  {
    assert (ps + [q, r])[..|ps| + 1] == ps + [q];
    assert (ps + [q])[..|ps|] == ps;
    assert Run(ps + [q]) == Received(Run(ps), q);
    assert Run(ps + [q, r]) == Received(Run(ps + [q]), r);
  }

  /** After a late packet the next in order counts everything since the late one as missing:
      what the two add on any run whose last number was `last`. */
  lemma LateThenNext(ps: seq<Packet>, q: Packet, r: Packet, last: nat, late: nat, next: nat)
    requires |ps| > 0 && (forall i :: 0 <= i < |ps| ==> InRange(ps[i])) && InRange(q) && InRange(r)
    requires ps[|ps| - 1].seqNum == last % 0x1_0000 && q.seqNum == late % 0x1_0000 && r.seqNum == next % 0x1_0000
    requires late <= last < next <= late + 32768
    ensures Run(ps + [q, r]).lost
         == Run(ps).lost
          + (if last % 0x1_0000 == 0 || (last + 1) / 0x1_0000 == late / 0x1_0000 then 0 else 65535 - (last - late))
          + (if late % 0x1_0000 == 0 then 0 else next - late - 1)
  {
    TwoMore(ps, q, r);
    LateLoss(last, late);
    LossInOrder(late, next);
  }

  /** Exactly when the two together add what is really missing between `last` and `next`: for
      a copy of the last packet, unless it is numbered 65535, and for a late packet numbered 0
      if nothing is missing. */
  lemma LateCountedIff(ps: seq<Packet>, q: Packet, r: Packet, last: nat, late: nat, next: nat)
    requires |ps| > 0 && (forall i :: 0 <= i < |ps| ==> InRange(ps[i])) && InRange(q) && InRange(r)
    requires ps[|ps| - 1].seqNum == last % 0x1_0000 && q.seqNum == late % 0x1_0000 && r.seqNum == next % 0x1_0000
    requires late <= last < next <= late + 32768
    ensures Run(ps + [q, r]).lost == Run(ps).lost + (next - last - 1)
            <==> if late % 0x1_0000 == 0 then next == last + 1 else late == last && late % 0x1_0000 != 65535
  {
    LateThenNext(ps, q, r, last, late, next);
    SameEpoch(last, late);
    PairCounts(last % 0x1_0000 == 0 || (last + 1) / 0x1_0000 == late / 0x1_0000, late % 0x1_0000 == 0, last, late, next);
  }

  /** The arithmetic of that, with what the late packet and its successor add picked by flags. */
  lemma PairCounts(quiet: bool, zero: bool, last: int, late: int, next: int)
    requires late <= last < next <= late + 32768 && (zero ==> quiet)
    ensures (if quiet then 0 else 65535 - (last - late)) + (if zero then 0 else next - late - 1) == next - last - 1
            <==> if zero then next == last + 1 else late == last && quiet
  {}

  lemma SameEpoch(last: nat, late: nat)
    requires late <= last <= late + 32767
    ensures late % 0x1_0000 == 0 ==> last % 0x1_0000 == 0 || (last + 1) / 0x1_0000 == late / 0x1_0000
    ensures late == last && late % 0x1_0000 != 0 ==>
              (last % 0x1_0000 == 0 || (last + 1) / 0x1_0000 == late / 0x1_0000 <==> late % 0x1_0000 != 65535)
  {}

  /** Such packets: one late packet makes its successor look lost, one that was overtaken
      across the wrap counts as 65534, and a copy of number 65535 as 65535. */
  lemma LatePacketCounts(p: Packet, q: Packet, r: Packet)
    requires InRange(p) && InRange(q) && InRange(r)
    ensures p.seqNum == 10 && q.seqNum == 9 && r.seqNum == 11 ==> Run([p, q, r]).lost == 1
    ensures p.seqNum == 65535 && q.seqNum == 65534 ==> Run([p, q]).lost == 65534
    ensures p.seqNum == q.seqNum == 65535 ==> Run([p, q]).lost == 65535
  {
    assert [p] + [q, r] == [p, q, r] && [p, q][..1] == [p];
    TwoMore([p], q, r);
    assert Run([p]) == Opened(p) && Run([p, q]) == Received(Opened(p), q);
  }

  /** The running jitter never exceeds the largest deviation, nor does the mean of them. */
  predicate JitterOk(s: Session) {
    0.0 <= s.interJitter <= s.maxJitter && 0.0 <= s.totalJitter <= s.maxJitter * s.packets as real
  }

  lemma JitterStep(s: Session, p: Packet)
    requires JitterOk(s) && s.lastSeq < 0x1_0000
    ensures JitterOk(Received(s, p))
  {
    var t := Received(s, p);
    assert t.maxJitter * t.packets as real == t.maxJitter * s.packets as real + t.maxJitter;
    assert t.maxJitter * s.packets as real >= s.maxJitter * s.packets as real;
  }

  lemma {:induction false} JitterOverRun(ps: seq<Packet>)
    requires |ps| > 0 && forall i :: 0 <= i < |ps| ==> InRange(ps[i])
    ensures JitterOk(Run(ps))
  {
    if |ps| > 1 {
      JitterOverRun(ps[..|ps| - 1]);
      JitterStep(Run(ps[..|ps| - 1]), ps[|ps| - 1]);
    }
  }

  // ---- What one packet does to the jitter ----

  function Distance(a: real, b: real): real {
    if a >= b then a - b else b - a
  }

  /** How far the spacing of two packets on arrival, in milliseconds, is from their spacing by
      timestamps of 8000 a second; one that reads as negative is taken to be 8192 more. */
  ghost predicate Apart(a: Packet, b: Packet, d: real) {
    exists ticks: int ::
      && -0x8000_0000 <= ticks < 0x8000_0000 && b.timestamp == Forward(a.timestamp, ticks)
      && d == Distance(b.arrival - a.arrival, if ticks >= 0 then ticks as real / 8.0 else ticks as real / 8.0 + 8192.0)
  }

  /** A 32-bit timestamp so many ticks on. */
  function Forward(timestamp: nat, ticks: int): int {
    (timestamp + ticks) % 0x1_0000_0000
  }

  lemma OneSpacing(timestamp: nat, t: int, u: int)
    requires -0x8000_0000 <= t < 0x8000_0000 && -0x8000_0000 <= u < 0x8000_0000
    requires Forward(timestamp, t) == Forward(timestamp, u)
    ensures t == u
  {}

  /** So for packets sent one after the other there is no doubt about the spacing. */
  lemma ApartForward(a: Packet, b: Packet, d: real, ticks: nat)
    requires InRange(a) && InRange(b) && Apart(a, b, d)
    requires ticks < 0x8000_0000 && b.timestamp == Forward(a.timestamp, ticks)
    ensures d == Distance(b.arrival - a.arrival, ticks as real / 8.0)
  {
    var t: int :| -0x8000_0000 <= t < 0x8000_0000 && b.timestamp == Forward(a.timestamp, t)
                  && d == Distance(b.arrival - a.arrival, if t >= 0 then t as real / 8.0 else t as real / 8.0 + 8192.0);
    OneSpacing(a.timestamp, t, ticks);
  }

  lemma DeviationApart(s: Session, a: Packet, b: Packet)
    requires InRange(a) && InRange(b) && s.lastArrival == Some(a.arrival) && s.lastTimestamp == a.timestamp
    ensures Apart(a, b, Deviation(s, b))
  {
    var ticks := SignedDifference(b.timestamp, a.timestamp);
    assert b.timestamp == Forward(a.timestamp, ticks);
  }

  lemma LastOfRun(ps: seq<Packet>)
    requires |ps| > 1 && forall i :: 0 <= i < |ps| ==> InRange(ps[i])
    ensures Run(ps).lastArrival == Some(ps[|ps| - 1].arrival) && Run(ps).lastTimestamp == ps[|ps| - 1].timestamp
  {}

  /** The jitter estimate of section 6.4.1 of RFC 3550, on any run: a sixteenth of the way to the
      new deviation; and the sum and the largest of all deviations. The second packet and one
      after timestamp 0 do not count. */
  lemma JitterFollows(ps: seq<Packet>, q: Packet) returns (d: real)
    requires |ps| > 0 && (forall i :: 0 <= i < |ps| ==> InRange(ps[i])) && InRange(q)
    ensures var (last, s, t) := (ps[|ps| - 1], Run(ps), Run(ps + [q]));
            if |ps| == 1 || last.timestamp == 0
            then t.interJitter == s.interJitter && t.totalJitter == s.totalJitter && t.maxJitter == s.maxJitter
            else && Apart(last, q, d)
                 && 16.0 * t.interJitter == 15.0 * s.interJitter + d
                 && t.totalJitter == s.totalJitter + d
                 && t.maxJitter == if d > s.maxJitter then d else s.maxJitter
  {
    d := 0.0;
    assert (ps + [q])[..|ps|] == ps;
    if |ps| > 1 {
      LastOfRun(ps);
      d := Deviation(Run(ps), q);
      DeviationApart(Run(ps), ps[|ps| - 1], q);
    }
  }

  /** Packets that arrive as evenly as they were sent. */
  ghost predicate Steady(ps: seq<Packet>) {
    forall i :: 0 < i < |ps| ==> SentApart(ps[i - 1], ps[i])
  }

  ghost predicate SentApart(a: Packet, b: Packet) {
    exists ticks: nat :: ticks < 0x8000_0000 && b.timestamp == Forward(a.timestamp, ticks) && b.arrival - a.arrival == ticks as real / 8.0
  }

  lemma {:induction false} SteadyHasNoJitter(ps: seq<Packet>)
    requires |ps| > 0 && (forall i :: 0 <= i < |ps| ==> InRange(ps[i])) && Steady(ps)
    ensures Run(ps).interJitter == 0.0 && Run(ps).totalJitter == 0.0 && Run(ps).maxJitter == 0.0
  {
    if |ps| > 1 {
      var n := |ps| - 1;
      SteadyHasNoJitter(ps[..n]);
      var d := JitterFollows(ps[..n], ps[n]);
      assert ps[..n] + [ps[n]] == ps && SentApart(ps[n - 1], ps[n]);
      if n > 1 && ps[n - 1].timestamp != 0 {
        var ticks: nat :| ticks < 0x8000_0000 && ps[n].timestamp == Forward(ps[n - 1].timestamp, ticks)
                          && ps[n].arrival - ps[n - 1].arrival == ticks as real / 8.0;
        ApartForward(ps[n - 1], ps[n], d, ticks);
      }
    }
  }

  /** A packet that was sent before the last one is read as sent 8192 milliseconds later than
      it was: its deviation is right exactly when the two mistakes cancel. */
  lemma BackwardRightIff(a: Packet, b: Packet, d: real, ticks: int)
    requires InRange(a) && InRange(b) && Apart(a, b, d)
    requires 0 < ticks <= 0x8000_0000 && b.timestamp == Forward(a.timestamp, -ticks)
    ensures d == Distance(b.arrival - a.arrival, -(ticks as real) / 8.0) <==> b.arrival - a.arrival == 4096.0 - ticks as real / 8.0
  {
    var t: int :| -0x8000_0000 <= t < 0x8000_0000 && b.timestamp == Forward(a.timestamp, t)
                  && d == Distance(b.arrival - a.arrival, if t >= 0 then t as real / 8.0 else t as real / 8.0 + 8192.0);
    OneSpacing(a.timestamp, t, -ticks);
    Cancel(b.arrival - a.arrival, ticks as real / 8.0);
  }

  lemma Cancel(x: real, q: real)
    ensures Distance(x, -q + 8192.0) == Distance(x, -q) <==> x == 4096.0 - q
  {}

  function Sizes(ps: seq<Packet>): nat {
    if ps == [] then 0 else Sizes(ps[..|ps| - 1]) + ps[|ps| - 1].size
  }

  /** A session's packets, bytes, last arrival and codec, over any run. */
  lemma {:induction false} CountersOfRun(ps: seq<Packet>)
    requires |ps| > 0 && forall i :: 0 <= i < |ps| ==> InRange(ps[i])
    ensures Run(ps).packets == |ps| && Run(ps).bytes == Sizes(ps)
    ensures Run(ps).lastSeen == ps[|ps| - 1].arrival && Run(ps).codec == ps[0].codec
  {
    if |ps| > 1 {
      CountersOfRun(ps[..|ps| - 1]);
    } else {
      assert ps[..0] == [];
    }
  }

  const MAX_SESSIONS: nat := 4096

  class VoipTracker {
    var sessions: map<nat, Session>

    ghost predicate Valid()
      reads this
    {
      && |sessions| <= MAX_SESSIONS
      && forall k :: k in sessions ==> sessions[k].lastSeq < 0x1_0000 && JitterOk(sessions[k])
    }

    constructor ()
      ensures Valid() && sessions == map[]
    {
      sessions := map[];
    }

    /** A new session evicts one seen longest ago, when the table is full; a known one is
        carried on, and no other session changes. */
    method Process(info: Packet)
      requires Valid() && InRange(info)
      modifies this
      ensures Valid() && info.ssrc in sessions
      ensures info.ssrc in old(sessions) ==>
                sessions == old(sessions)[info.ssrc := Received(old(sessions)[info.ssrc], info)]
      ensures info.ssrc !in old(sessions) && |old(sessions)| < 4096 ==>
                sessions == old(sessions)[info.ssrc := Opened(info)]
      ensures info.ssrc !in old(sessions) && |old(sessions)| == 4096 ==>
                exists k: nat :: Oldest(old(sessions), k) && sessions == (old(sessions) - {k})[info.ssrc := Opened(info)]
    {
      if info.ssrc !in sessions {
        if |sessions| >= MAX_SESSIONS {
          EvictOldest();
        }
        sessions := sessions[info.ssrc := Opened(info)];
        return;
      }
      var s := sessions[info.ssrc];
      JitterStep(s, info);
      s := Continue(s, info);
      sessions := sessions[info.ssrc := s];
    }

    static method Continue(sess: Session, info: Packet) returns (s: Session)
      requires sess.lastSeq < 0x1_0000 && InRange(info)
      ensures s == Received(sess, info)
    {
      s := sess.(packets := sess.packets + 1, bytes := sess.bytes + info.size, lastSeen := info.arrival);
      if s.lastArrival.Some? && s.lastTimestamp != 0 {
        var d := Deviation(s, info);
        s := s.(interJitter := s.interJitter + (d - s.interJitter) / 16.0);
        if d > s.maxJitter {
          s := s.(maxJitter := d);
        }
        s := s.(totalJitter := s.totalJitter + d);
      }
      s := s.(lastArrival := Some(info.arrival), lastTimestamp := info.timestamp);
      var expected := (s.lastSeq + 1) % 0x1_0000;
      if s.lastSeq != 0 {
        var gap := info.seqNum - expected;
        if gap > 0 {
          s := s.(lost := s.lost + gap);
        } else if gap < -32768 {
          gap := 65536 - expected + info.seqNum;
          s := s.(lost := s.lost + gap);
        }
      }
      s := s.(lastSeq := info.seqNum);
    }

    method EvictOldest()
      requires sessions != map[]
      modifies this
      ensures exists k: nat :: Oldest(old(sessions), k) && sessions == old(sessions) - {k}
    {
      var rest := sessions.Keys;
      var oldest :| oldest in rest;
      rest := rest - {oldest};
      while rest != {}
        invariant rest <= sessions.Keys && oldest in sessions
        invariant forall k :: k in sessions && k !in rest ==> sessions[oldest].lastSeen <= sessions[k].lastSeen
      {
        var k :| k in rest;
        rest := rest - {k};
        if sessions[k].lastSeen < sessions[oldest].lastSeen {
          oldest := k;
        }
      }
      assert Oldest(sessions, oldest);
      sessions := sessions - {oldest};
    }
  }

  ghost predicate Oldest(sessions: map<nat, Session>, k: nat) {
    k in sessions && forall j :: j in sessions ==> sessions[k].lastSeen <= sessions[j].lastSeen
  }
}
