/** The bounded table of UDP streams, keyed by conntrack ID. The cache behind it may evict
    any other key when it is full, and does so without closing the stream. */
module UdpTable {
  import opened Entries
  import opened Folds
  import opened Options
  import opened Rulesets
  import opened UdpStreams

  datatype Flow<T> = Flow(src: T, dst: T) {
    function Reverse(): Flow<T> { Flow(dst, src) }
  }

  datatype Ruleset = Ruleset(rules: seq<Rule>, analyzers: StreamInfo -> seq<Entry>)

  datatype Datagram = Datagram(id: nat, ip: Flow<Bytes>, udp: Flow<nat>, payload: Bytes)

  /** A datagram handed to a stream, with the direction it was handed over with. */
  datatype Seen = Seen(d: Datagram, rev: bool)

  /** A stream in the table: the ruleset in force and the flow it was created with, and
      what it was handed since. That determines all the rest, its trace. */
  datatype Slot = Slot(ruleset: Ruleset, info: StreamInfo, ip: Flow<Bytes>, udp: Flow<nat>, seen: seq<Seen>) {

    predicate Forward(d: Datagram) { ip == d.ip && udp == d.udp }

    predicate Backward(d: Datagram) { ip == d.ip.Reverse() && udp == d.udp.Reverse() }

    function Chunks(): seq<Chunk> {
      seq(|seen|, i requires 0 <= i < |seen| => Chunk(seen[i].rev, false, false, 0, seen[i].d.payload))
    }

    function Trace(): Trace {
      Run(ruleset.rules, info, ruleset.analyzers(info), Chunks())
    }

    function Receive(d: Datagram, rev: bool): Slot {
      this.(seen := seen + [Seen(d, rev)])
    }
  }

  function Info(serial: nat, d: Datagram): StreamInfo {
    StreamInfo(serial, d.ip.src, d.ip.dst, d.udp.src, d.udp.dst)
  }

  function NewSlot(ruleset: Ruleset, serial: nat, d: Datagram): Slot {
    Slot(ruleset, Info(serial, d), d.ip, d.udp, [])
  }

  /** A stream that was closed, and its analyzers, all of them finished now. */
  datatype Ended = Ended(slot: Slot, finished: seq<Entry>)

  function Closed(slot: Slot): Ended {
    var s := slot.Trace().state;
    Ended(slot, s.finished + CloseAll(s.active))
  }

  /** `closed` and `evicted` are the streams that left: closed on losing their ID to
      another flow, or dropped by the cache as they were. */
  datatype Table = Table(slots: map<nat, Slot>, next: nat, closed: seq<Ended>, evicted: seq<Slot>)

  /** What the cache keeps: over capacity, the victim it picked goes. */
  function Kept(slots: map<nat, Slot>, capacity: nat, victim: nat): map<nat, Slot> {
    if |slots| > capacity && victim in slots then slots - {victim} else slots
  }

  function Add(t: Table, capacity: nat, id: nat, slot: Slot, victim: nat): Table {
    var slots := t.slots[id := slot];
    t.(slots := Kept(slots, capacity, victim), next := t.next + 1,
       evicted := t.evicted + if |slots| > capacity && victim in slots then [slots[victim]] else [])
  }

  /** Finds or makes the stream of a datagram; also says whether it runs in reverse. */
  function Route(t: Table, capacity: nat, ruleset: Ruleset, d: Datagram, victim: nat): (Table, bool) {
    var made := NewSlot(ruleset, t.next, d);
    if d.id !in t.slots then (Add(t, capacity, d.id, made, victim), false)
    else
      var slot := t.slots[d.id];
      if slot.Forward(d) || slot.Backward(d) then (t, slot.Backward(d))
      else (Add(t.(closed := t.closed + [Closed(slot)]), capacity, d.id, made, victim), false)
  }

  function Handle(t: Table, capacity: nat, ruleset: Ruleset, d: Datagram, victim: nat): Table {
    var (routed, rev) := Route(t, capacity, ruleset, d, victim);
    if d.id in routed.slots then routed.(slots := routed.slots[d.id := routed.slots[d.id].Receive(d, rev)])
    else routed
  }

  /** What rules and analyzers are told of a stream: the ends of the datagram that made it. */
  ghost predicate InfoOk(slot: Slot, first: Datagram) {
    && slot.info.srcIP == first.ip.src && slot.info.dstIP == first.ip.dst
    && slot.info.srcPort == first.udp.src && slot.info.dstPort == first.udp.dst
  }

  /** Everything a stream was handed has its ID and its own flow, or the exact reverse
      and then said so; the first datagram, the one that made it, ran forward, and its source
      and target are the stream's. */
  ghost predicate SlotOk(id: nat, slot: Slot) {
    && slot.seen != [] && slot.Forward(slot.seen[0].d) && !slot.seen[0].rev && InfoOk(slot, slot.seen[0].d)
    && forall i :: 0 <= i < |slot.seen| ==>
         && slot.seen[i].d.id == id
         && (if slot.seen[i].rev then slot.Backward(slot.seen[i].d) else slot.Forward(slot.seen[i].d))
  }

  ghost predicate TableOk(t: Table, capacity: nat) {
    && |t.slots| <= capacity
    && (forall id :: id in t.slots ==> SlotOk(id, t.slots[id]))
  }

  /** Room in the cache, or a victim to make room: what the cache promises of its choice. */
  ghost predicate VictimOk(t: Table, capacity: nat, id: nat, victim: nat) {
    capacity > 0 && |t.slots| <= capacity && victim != id
    && (|t.slots| == capacity && id !in t.slots ==> victim in t.slots)
  }

  lemma AddSpec(t: Table, capacity: nat, id: nat, slot: Slot, victim: nat)
    requires VictimOk(t, capacity, id, victim)
    ensures var r := Add(t, capacity, id, slot, victim);
      && |r.slots| <= capacity && id in r.slots && r.slots[id] == slot
      && forall k :: k in r.slots && k != id ==> k in t.slots && r.slots[k] == t.slots[k]
  {
    var wide := t.slots[id := slot];
    assert wide.Keys == t.slots.Keys + {id};
    assert (wide - {victim}).Keys == wide.Keys - {victim};
  }

  /** Routing leaves every other stream alone, and finds either a new stream in forward
      direction or the old one, whose flow the datagram has in the direction told. */
  lemma RouteSpec(t: Table, capacity: nat, ruleset: Ruleset, d: Datagram, victim: nat)
    requires VictimOk(t, capacity, d.id, victim)
    ensures var (r, rev) := Route(t, capacity, ruleset, d, victim);
      && |r.slots| <= capacity && d.id in r.slots
      && (forall k :: k in r.slots && k != d.id ==> k in t.slots && r.slots[k] == t.slots[k])
      && ((r.slots[d.id] == NewSlot(ruleset, t.next, d) && !rev)
          || (d.id in t.slots && r.slots[d.id] == t.slots[d.id] && rev == t.slots[d.id].Backward(d)
              && (t.slots[d.id].Forward(d) || rev)))
  {
    AddSpec(t, capacity, d.id, NewSlot(ruleset, t.next, d), victim);
    if d.id in t.slots {
      AddSpec(t.(closed := t.closed + [Closed(t.slots[d.id])]), capacity, d.id, NewSlot(ruleset, t.next, d), victim);
    }
  }

  lemma ReceiveOk(slot: Slot, d: Datagram, rev: bool)
    requires if rev then slot.Backward(d) else slot.Forward(d)
    requires SlotOk(d.id, slot)
    ensures SlotOk(d.id, slot.Receive(d, rev))
  {}

  lemma NewReceives(ruleset: Ruleset, serial: nat, d: Datagram)
    ensures SlotOk(d.id, NewSlot(ruleset, serial, d).Receive(d, false))
  {}

  /** One datagram keeps the table within capacity and every stream on its own flow. */
  lemma HandleKeeps(t: Table, capacity: nat, ruleset: Ruleset, d: Datagram, victim: nat)
    requires TableOk(t, capacity) && VictimOk(t, capacity, d.id, victim)
    ensures TableOk(Handle(t, capacity, ruleset, d, victim), capacity)
  {
    RouteSpec(t, capacity, ruleset, d, victim);
    var (routed, rev) := Route(t, capacity, ruleset, d, victim);
    if routed.slots[d.id] == NewSlot(ruleset, t.next, d) && !rev {
      NewReceives(ruleset, t.next, d);
    } else {
      ReceiveOk(routed.slots[d.id], d, rev);
    }
    ReplaceOk(routed, capacity, d.id, routed.slots[d.id].Receive(d, rev));
  }

  lemma ReplaceOk(t: Table, capacity: nat, id: nat, slot: Slot)
    requires |t.slots| <= capacity && id in t.slots && SlotOk(id, slot)
    requires forall k :: k in t.slots && k != id ==> SlotOk(k, t.slots[k])
    ensures TableOk(t.(slots := t.slots[id := slot]), capacity)
  {
    assert t.slots[id := slot].Keys == t.slots.Keys;
  }

  /** Address by address and port by port: what ran forward had the stream's source as its
      source, what ran in reverse its target. */
  lemma DirectionsAre(id: nat, slot: Slot, k: nat)
    requires SlotOk(id, slot) && k < |slot.seen|
    ensures var (d, first) := (slot.seen[k].d, slot.seen[0].d);
            if slot.seen[k].rev
            then d.ip.src == first.ip.dst && d.ip.dst == first.ip.src && d.udp.src == first.udp.dst && d.udp.dst == first.udp.src
            else d.ip.src == first.ip.src && d.ip.dst == first.ip.dst && d.udp.src == first.udp.src && d.udp.dst == first.udp.dst
  {
    assert slot.Forward(slot.seen[0].d);
  }

  /** A known ID goes on with its stream exactly when the ends are the same or swapped, and runs
      in reverse exactly when they are swapped. */
  lemma RouteByEnds(t: Table, capacity: nat, ruleset: Ruleset, d: Datagram, victim: nat)
    requires VictimOk(t, capacity, d.id, victim) && d.id in t.slots
    ensures var slot, (r, rev) := t.slots[d.id], Route(t, capacity, ruleset, d, victim);
            var same := d.ip.src == slot.ip.src && d.ip.dst == slot.ip.dst && d.udp.src == slot.udp.src && d.udp.dst == slot.udp.dst;
            var swapped := d.ip.src == slot.ip.dst && d.ip.dst == slot.ip.src && d.udp.src == slot.udp.dst && d.udp.dst == slot.udp.src;
            if same || swapped then r == t && rev == swapped
            else !rev && d.id in r.slots && r.slots[d.id] == NewSlot(ruleset, t.next, d)
  {
    RouteSpec(t, capacity, ruleset, d, victim);
  }

  /** A reused ID with another flow: the old stream is closed, and the datagram goes to a
      new stream made by it, under the ruleset now in force. */
  lemma ReusedIdStartsAfresh(t: Table, capacity: nat, ruleset: Ruleset, d: Datagram, victim: nat)
    requires VictimOk(t, capacity, d.id, victim)
    requires d.id in t.slots && !t.slots[d.id].Forward(d) && !t.slots[d.id].Backward(d)
    ensures var t' := Handle(t, capacity, ruleset, d, victim);
      && t'.closed == t.closed + [Closed(t.slots[d.id])]
      && t'.slots == t.slots[d.id := NewSlot(ruleset, t.next, d).Receive(d, false)]
  {
    assert t.slots[d.id := NewSlot(ruleset, t.next, d)].Keys == t.slots.Keys;
  }

  /** One call of the table: the ruleset its factory held, the datagram, the cache's victim. */
  datatype Input = Input(ruleset: Ruleset, d: Datagram, victim: nat)

  ghost predicate Follows(t: Table, input: Input, after: Table, capacity: nat) {
    && VictimOk(t, capacity, input.d.id, input.victim)
    && after == Handle(t, capacity, input.ruleset, input.d, input.victim)
  }

  const EMPTY := Table(map[], 0, [], [])

  ghost predicate IsRun(tables: seq<Table>, inputs: seq<Input>, capacity: nat) {
    && |tables| == |inputs| + 1
    && tables[0] == EMPTY
    && forall i :: 0 <= i < |inputs| ==> Follows(tables[i], inputs[i], tables[i + 1], capacity)
  }

  /** A stream that was fed its own flow only, forward first. */
  ghost predicate Proper(slot: Slot) {
    exists id :: SlotOk(id, slot)
  }

  ghost predicate LeftOk(t: Table) {
    && (forall e :: e in t.closed ==> e == Closed(e.slot) && Proper(e.slot))
    && (forall slot :: slot in t.evicted ==> Proper(slot))
  }

  /** A stream leaves the table as it was in it: when another flow takes its ID, or when the
      table is full and a new ID comes. Otherwise all others stay. */
  lemma Leaving(t: Table, capacity: nat, ruleset: Ruleset, d: Datagram, victim: nat)
    requires VictimOk(t, capacity, d.id, victim)
    ensures var t' := Handle(t, capacity, ruleset, d, victim);
      && (if d.id in t.slots && !t.slots[d.id].Forward(d) && !t.slots[d.id].Backward(d)
          then t'.closed == t.closed + [Closed(t.slots[d.id])] else t'.closed == t.closed)
      && (if d.id !in t.slots && |t.slots| == capacity
          then victim in t.slots && t'.evicted == t.evicted + [t.slots[victim]] else t'.evicted == t.evicted)
      && (forall k :: k in t.slots && k != d.id && (k == victim ==> d.id in t.slots || |t.slots| < capacity) ==>
            k in t'.slots && t'.slots[k] == t.slots[k])
  {
    assert t.evicted + [] == t.evicted;
    assert (t.slots[d.id := NewSlot(ruleset, t.next, d)]).Keys == t.slots.Keys + {d.id};
  }

  lemma HandleLeaves(t: Table, capacity: nat, ruleset: Ruleset, d: Datagram, victim: nat)
    requires TableOk(t, capacity) && LeftOk(t) && VictimOk(t, capacity, d.id, victim)
    ensures LeftOk(Handle(t, capacity, ruleset, d, victim))
  {
    Leaving(t, capacity, ruleset, d, victim);
    forall id | id in t.slots ensures Proper(t.slots[id]) {
      assert SlotOk(id, t.slots[id]);
    }
  }

  lemma EmptyOk(capacity: nat)
    ensures TableOk(EMPTY, capacity) && LeftOk(EMPTY)
  {}

  lemma FollowsOk(t: Table, input: Input, after: Table, capacity: nat)
    requires Follows(t, input, after, capacity) && TableOk(t, capacity) && LeftOk(t)
    ensures TableOk(after, capacity) && LeftOk(after)
  {
    HandleKeeps(t, capacity, input.ruleset, input.d, input.victim);
    HandleLeaves(t, capacity, input.ruleset, input.d, input.victim);
  }

  /** Every table of every run is within capacity, with every stream fed its own flow only,
      forward first, and run under the one ruleset it was created with; and so was every
      stream that left it. */
  lemma {:induction false} EveryTableOk(tables: seq<Table>, inputs: seq<Input>, capacity: nat, n: nat)
    requires IsRun(tables, inputs, capacity) && n < |tables|
    ensures TableOk(tables[n], capacity) && LeftOk(tables[n])
  {
    if n == 0 {
      EmptyOk(capacity);
    } else {
      EveryTableOk(tables, inputs, capacity, n - 1);
      FollowsOk(tables[n - 1], inputs[n - 1], tables[n], capacity);
    }
  }

  /** Every stream that ever lost its ID was closed: each of its analyzers is finished, after
      a legal history. */
  lemma ClosedStreamsFinished(tables: seq<Table>, inputs: seq<Input>, capacity: nat, n: nat, i: nat)
    requires IsRun(tables, inputs, capacity) && n < |tables| && i < |tables[n].closed|
    requires var slot := tables[n].closed[i].slot; Unused(slot.ruleset.analyzers(slot.info))
    ensures var slot := tables[n].closed[i].slot;
            && Proper(slot)
            && EntriesOk(false, slot.ruleset.analyzers(slot.info), slot.Trace().fed, [], tables[n].closed[i].finished)
  {
    EveryTableOk(tables, inputs, capacity, n);
    var slot := tables[n].closed[i].slot;
    ClosingFinishesAll(slot.ruleset.rules, slot.info, slot.ruleset.analyzers(slot.info), slot.Chunks());
  }

  /** What the streams promise, said of any stream of the table. */
  lemma SlotStreamOk(slot: Slot)
    requires Unused(slot.ruleset.analyzers(slot.info))
    ensures VerdictOk(slot.Trace().state) && AnswersOk(slot.Trace().state, slot.Trace().answers)
    ensures EntriesOk(false, slot.ruleset.analyzers(slot.info), slot.Trace().fed,
                      slot.Trace().state.active, slot.Trace().state.finished)
  {
    RunKeepsVerdict(slot.ruleset.rules, slot.info, slot.ruleset.analyzers(slot.info), slot.Chunks());
    RunKeepsEntries(slot.ruleset.rules, slot.info, slot.ruleset.analyzers(slot.info), slot.Chunks());
  }

  /** What the analyzers of a stream in the table were fed: the payloads it was handed, each with
      the direction it ran in, from the first on. */
  lemma FedAsSeen(slot: Slot, k: nat)
    requires k < |slot.Trace().fed|
    ensures k < |slot.seen|
    ensures slot.Trace().fed[k].rev == slot.seen[k].rev && slot.Trace().fed[k].data == slot.seen[k].d.payload
  {
    FedIsPrefix(slot.ruleset.rules, slot.info, slot.ruleset.analyzers(slot.info), slot.Chunks());
  }

  /** How a stream of the table answers a datagram it is handed. */
  function Answer(slot: Slot, d: Datagram, rev: bool): Passage {
    OnDatagram(slot.ruleset.rules, slot.info, slot.Trace().state, Chunk(rev, false, false, 0, d.payload))
  }

  lemma ReceiveExtends(slot: Slot, d: Datagram, rev: bool)
    ensures slot.Receive(d, rev).Trace()
         == Extend(slot.ruleset.rules, slot.info, slot.Trace(), Chunk(rev, false, false, 0, d.payload))
  {
    var c := Chunk(rev, false, false, 0, d.payload);
    assert slot.Receive(d, rev).Chunks() == slot.Chunks() + [c];
    FoldSnoc(Step(slot.ruleset.rules, slot.info), Start(slot.ruleset.analyzers(slot.info)), slot.Chunks(), c);
  }

  /** The manager: its cache, and the factory whose ruleset new streams take. */
  class UdpStreamManager {
    const capacity: nat
    var ruleset: Ruleset
    var slots: map<nat, Slot>
    var next: nat
    var closed: seq<Ended>
    var evicted: seq<Slot>

    function Value(): Table reads this {
      Table(slots, next, closed, evicted)
    }

    constructor (capacity: nat, ruleset: Ruleset)
      ensures Value() == EMPTY && this.capacity == capacity && this.ruleset == ruleset
    {
      this.capacity, this.ruleset := capacity, ruleset;
      slots, next, closed, evicted := map[], 0, [], [];
    }

    method Store(id: nat, slot: Slot, victim: nat)
      modifies this`slots, this`next, this`evicted
      ensures Value() == Add(old(Value()), capacity, id, slot, victim)
    {
      slots := slots[id := slot];
      next := next + 1;
      if |slots| > capacity && victim in slots {
        evicted := evicted + [slots[victim]];
        slots := slots - {victim};
      }
    }

    /** Finds or makes the stream of the datagram and hands it over. Verdict and rewritten
        payload are those of the stream as the UdpStream class computes them. */
    method MatchWithContext(d: Datagram, victim: nat) returns (verdict: Verdict, packet: Option<Bytes>)
      requires VictimOk(Value(), capacity, d.id, victim)
      modifies this`slots, this`next, this`closed, this`evicted
      ensures Value() == Handle(old(Value()), capacity, ruleset, d, victim)
      ensures var (routed, rev) := Route(old(Value()), capacity, ruleset, d, victim);
              && d.id in routed.slots
              && verdict == Answer(routed.slots[d.id], d, rev).verdict
              && packet == Answer(routed.slots[d.id], d, rev).packet
      ensures d.id in slots && slots[d.id].Trace().verdicts != []
      ensures var trace := slots[d.id].Trace();
              && verdict == trace.verdicts[|trace.verdicts| - 1]
              && trace.packets != [] && packet == trace.packets[|trace.packets| - 1]
    {
      RouteSpec(Value(), capacity, ruleset, d, victim);
      var rev := false;
      if d.id !in slots {
        Store(d.id, NewSlot(ruleset, next, d), victim);
      } else {
        var slot := slots[d.id];
        var fwd := slot.Forward(d);
        rev := slot.Backward(d);
        if !fwd && !rev {
          closed := closed + [Closed(slot)];
          Store(d.id, NewSlot(ruleset, next, d), victim);
        }
      }
      assert Value() == Route(old(Value()), capacity, ruleset, d, victim).0;
      verdict, packet := Receive(d, rev);
    }

    method Receive(d: Datagram, rev: bool) returns (verdict: Verdict, packet: Option<Bytes>)
      requires d.id in slots
      modifies this`slots
      ensures slots == old(slots)[d.id := old(slots)[d.id].Receive(d, rev)]
      ensures verdict == Answer(old(slots)[d.id], d, rev).verdict && packet == Answer(old(slots)[d.id], d, rev).packet
      ensures slots[d.id].Trace().verdicts == old(slots)[d.id].Trace().verdicts + [verdict]
      ensures slots[d.id].Trace().packets == old(slots)[d.id].Trace().packets + [packet]
    {
      var slot := slots[d.id];
      var answer := Answer(slot, d, rev);
      verdict, packet := answer.verdict, answer.packet;
      slots := slots[d.id := slot.Receive(d, rev)];
      ReceiveExtends(slot, d, rev);
    }

    method UpdateRuleset(r: Ruleset)
      modifies this`ruleset
      ensures ruleset == r
    {
      ruleset := r;
    }
  }
}
