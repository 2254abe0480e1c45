/** The interception engine as a concurrent system: one dispatcher, workers with bounded
    queues, and a ruleset update that reaches the workers' stream factories one by one. */
module Workers {

  datatype Transport = TCP | UDP | Other

  /** `number` is the packet's place in the order of arrival; `version` the IP version
      field of its first byte; `flow` its connection (TCP) or flow up to direction (UDP). */
  datatype Packet = Packet(number: nat, streamID: nat, version: nat, transport: Transport, flow: nat)

  /** A tracked stream: its serial in its worker, its flow, and the ruleset it keeps. */
  datatype Stream = Stream(serial: nat, flow: nat, ruleset: nat)

  datatype Worker = Worker(
    queue: seq<Packet>,
    inHand: seq<Packet>,         // taken from the queue, verdict not yet set: none or one
    tcpRuleset: nat,
    udpRuleset: nat,
    tcp: map<nat, Stream>,       // by connection
    udp: map<nat, Stream>,       // by conntrack ID
    next: nat,
    matches: seq<(nat, nat)>)    // (stream serial, ruleset) of every Match so far

  datatype Engine = Engine(workers: seq<Worker>, queueSize: nat, arrived: seq<Packet>, verdicts: seq<Packet>)

  /** One atomic step of some thread. `forget` stands for the assembler's or the cache's
      dropping of streams. A step that is not enabled does nothing. */
  datatype Step =
    | Dispatch(p: Packet)
    | Take(w: nat)
    | Answer(w: nat)
    | SetTcpRuleset(w: nat, ruleset: nat)
    | SetUdpRuleset(w: nat, ruleset: nat)
    | Forget(w: nat, connections: set<nat>, ids: set<nat>)

  function Use(w: Worker, s: Stream): Worker {
    w.(matches := w.matches + [(s.serial, s.ruleset)])
  }

  /** Matching a packet on its stream, which is made first if need be, under the ruleset
      its factory holds at that moment. */
  function HandlePacket(w: Worker, p: Packet): Worker {
    match p.transport
    case Other => w
    case TCP =>
      if p.flow in w.tcp then Use(w, w.tcp[p.flow])
      else
        var s := Stream(w.next, p.flow, w.tcpRuleset);
        Use(w.(tcp := w.tcp[p.flow := s], next := w.next + 1), s)
    case UDP =>
      if p.streamID in w.udp && w.udp[p.streamID].flow == p.flow then Use(w, w.udp[p.streamID])
      else
        var s := Stream(w.next, p.flow, w.udpRuleset);
        Use(w.(udp := w.udp[p.streamID := s], next := w.next + 1), s)
  }

  function Index(e: Engine, streamID: nat): nat
    requires |e.workers| > 0
  {
    streamID % |e.workers|
  }

  predicate Bypasses(p: Packet) {
    p.version != 4 && p.version != 6
  }

  function Next(e: Engine, step: Step): Engine
    requires |e.workers| > 0
  {
    match step
    case Dispatch(p) =>
      var i := Index(e, p.streamID);
      var w := e.workers[i];
      if p.number != |e.arrived| then e
      else if Bypasses(p) then e.(arrived := e.arrived + [p], verdicts := e.verdicts + [p])
      else if |w.queue| >= e.queueSize then e
      else e.(arrived := e.arrived + [p], workers := e.workers[i := w.(queue := w.queue + [p])])
    case Take(i) =>
      if i >= |e.workers| || e.workers[i].inHand != [] || e.workers[i].queue == [] then e
      else
        var w := e.workers[i];
        e.(workers := e.workers[i := HandlePacket(w.(queue := w.queue[1..], inHand := [w.queue[0]]), w.queue[0])])
    case Answer(i) =>
      if i >= |e.workers| then e
      else e.(workers := e.workers[i := e.workers[i].(inHand := [])], verdicts := e.verdicts + e.workers[i].inHand)
    case SetTcpRuleset(i, r) =>
      if i >= |e.workers| then e else e.(workers := e.workers[i := e.workers[i].(tcpRuleset := r)])
    case SetUdpRuleset(i, r) =>
      if i >= |e.workers| then e else e.(workers := e.workers[i := e.workers[i].(udpRuleset := r)])
    case Forget(i, connections, ids) =>
      if i >= |e.workers| then e
      else
        var w := e.workers[i];
        e.(workers := e.workers[i := w.(tcp := w.tcp - connections, udp := w.udp - ids)])
  }

  function Start(count: nat, queueSize: nat, ruleset: nat): Engine {
    Engine(seq(count, _ => Worker([], [], ruleset, ruleset, map[], map[], 0, [])), queueSize, [], [])
  }

  function Run(e: Engine, steps: seq<Step>): (r: Engine)
    requires |e.workers| > 0
    ensures |r.workers| == |e.workers|
  {
    if steps == [] then e else Next(Run(e, steps[..|steps| - 1]), steps[|steps| - 1])
  }

  predicate Wanted(id: nat, all: bool, p: Packet) {
    p.streamID == id && (all || !Bypasses(p))
  }

  /** The packets of one stream ID in a sequence, in order: all of them, or just those
      that go to a worker. */
  function Of(id: nat, all: bool, ps: seq<Packet>): seq<Packet> {
    if ps == [] then []
    else Of(id, all, ps[..|ps| - 1]) + (if Wanted(id, all, ps[|ps| - 1]) then [ps[|ps| - 1]] else [])
  }

  lemma {:induction false} OfConcat(id: nat, all: bool, a: seq<Packet>, b: seq<Packet>)
    ensures Of(id, all, a + b) == Of(id, all, a) + Of(id, all, b)
  {
    if b == [] {
      assert a + b == a;
    } else {
      var n := |b| - 1;
      assert (a + b)[..|a| + n] == a + b[..n];
      OfConcat(id, all, a, b[..n]);
    }
  }

  lemma {:induction false} OfOthers(id: nat, all: bool, ps: seq<Packet>)
    requires forall p :: p in ps ==> p.streamID != id
    ensures Of(id, all, ps) == []
  {
    if ps != [] {
      OfOthers(id, all, ps[..|ps| - 1]);
    }
  }

  /** What a worker still owes, oldest first. */
  function Pending(w: Worker): seq<Packet> {
    w.inHand + w.queue
  }

  /** A worker is owed only packets of its own stream IDs, and none that bypasses. */
  ghost predicate Routed(e: Engine) {
    && |e.workers| > 0
    && forall i, p :: 0 <= i < |e.workers| && p in Pending(e.workers[i]) ==> !Bypasses(p) && Index(e, p.streamID) == i
  }

  /** What has been answered of a stream ID, then what is owed, is what arrived, in order. */
  ghost predicate Books(id: nat, all: bool, verdicts: seq<Packet>, owed: seq<Packet>, arrived: seq<Packet>) {
    Of(id, all, verdicts) + Of(id, all, owed) == Of(id, all, arrived)
  }

  function Owed(e: Engine, id: nat): seq<Packet>
    requires |e.workers| > 0
  {
    Pending(e.workers[Index(e, id)])
  }

  /** The books of the packets that go to the worker of a stream ID are in order. */
  ghost predicate InOrder(e: Engine, id: nat)
    requires |e.workers| > 0
  {
    Books(id, false, e.verdicts, Owed(e, id), e.arrived)
  }

  lemma HandleKeepsQueue(w: Worker, p: Packet)
    ensures HandlePacket(w, p).queue == w.queue && HandlePacket(w, p).inHand == w.inHand
  {}

  lemma TakeKeepsPending(w: Worker)
    requires w.inHand == [] && w.queue != []
    ensures Pending(HandlePacket(w.(queue := w.queue[1..], inHand := [w.queue[0]]), w.queue[0])) == Pending(w)
  {
    HandleKeepsQueue(w.(queue := w.queue[1..], inHand := [w.queue[0]]), w.queue[0]);
  }

  lemma RoutedStep(e: Engine, step: Step)
    requires Routed(e)
    ensures Routed(Next(e, step))
  {
    if step.Take? && step.w < |e.workers| && e.workers[step.w].inHand == [] && e.workers[step.w].queue != [] {
      TakeKeepsPending(e.workers[step.w]);
    }
  }

  lemma OfSnoc(id: nat, all: bool, ps: seq<Packet>, p: Packet)
    ensures Of(id, all, ps + [p]) == Of(id, all, ps) + (if Wanted(id, all, p) then [p] else [])
  {
    assert (ps + [p])[..|ps|] == ps;
  }

  lemma Assoc(a: seq<Packet>, b: seq<Packet>, c: seq<Packet>)
    ensures a + b + c == a + (b + c)
    ensures a + [] == a == [] + a
  {}

  /** The three ways the books of a stream ID move, on the sequences alone. */
  lemma BooksArrive(id: nat, all: bool, verdicts: seq<Packet>, owed: seq<Packet>, arrived: seq<Packet>, p: Packet)
    requires Books(id, all, verdicts, owed, arrived)
    ensures Books(id, all, verdicts, owed + [p], arrived + [p])
    ensures !Wanted(id, all, p) ==> Books(id, all, verdicts + [p], owed, arrived + [p])
    ensures !Wanted(id, all, p) ==> Books(id, all, verdicts, owed, arrived + [p])
  {
    OfSnoc(id, all, arrived, p);
    OfSnoc(id, all, verdicts, p);
    OfSnoc(id, all, owed, p);
    if Wanted(id, all, p) {
      Assoc(Of(id, all, verdicts), Of(id, all, owed), [p]);
    }
  }

  lemma BooksAnswer(id: nat, all: bool, verdicts: seq<Packet>, inHand: seq<Packet>, queue: seq<Packet>)
    ensures Of(id, all, verdicts + inHand) + Of(id, all, queue)
         == Of(id, all, verdicts) + Of(id, all, inHand + queue)
  {
    OfConcat(id, all, verdicts, inHand);
    OfConcat(id, all, inHand, queue);
    Assoc(Of(id, all, verdicts), Of(id, all, inHand), Of(id, all, queue));
  }

  /** What dispatching a packet does to the three sequences of a stream ID. */
  lemma DispatchMoves(e: Engine, p: Packet, id: nat)
    requires |e.workers| > 0
    ensures var e' := Next(e, Dispatch(p));
            || e' == e
            || (e'.arrived == e.arrived + [p] && e'.verdicts == e.verdicts && Owed(e', id) == Owed(e, id) + [p])
            || (e'.arrived == e.arrived + [p] && e'.verdicts == e.verdicts && Owed(e', id) == Owed(e, id) && p.streamID != id)
            || (e'.arrived == e.arrived + [p] && e'.verdicts == e.verdicts + [p] && Owed(e', id) == Owed(e, id) && Bypasses(p))
  {
    var i := Index(e, id);
    var w, e' := e.workers[i], Next(e, Dispatch(p));
    assert Index(e', id) == i;
    Assoc(w.inHand, w.queue, [p]);
  }

  lemma DispatchInOrder(e: Engine, p: Packet, id: nat)
    requires |e.workers| > 0 && InOrder(e, id)
    ensures InOrder(Next(e, Dispatch(p)), id)
  {
    DispatchMoves(e, p, id);
    BooksArrive(id, false, e.verdicts, Owed(e, id), e.arrived, p);
  }

  lemma AnswerKeepsBooks(e: Engine, j: nat, id: nat, all: bool)
    requires Routed(e) && j < |e.workers| && Books(id, all, e.verdicts, Owed(e, id), e.arrived)
    ensures var e' := Next(e, Answer(j));
            Books(id, all, e'.verdicts, Owed(e', id), e'.arrived)
  {
    var i := Index(e, id);
    var w := e.workers[j];
    assert Index(Next(e, Answer(j)), id) == i;
    if i == j {
      BooksAnswer(id, all, e.verdicts, w.inHand, w.queue);
      Assoc(w.queue, [], []);
    } else {
      assert forall p :: p in w.inHand ==> p in Pending(w);
      OfOthers(id, all, w.inHand);
      OfConcat(id, all, e.verdicts, w.inHand);
      Assoc(Of(id, all, e.verdicts), [], []);
    }
  }

  /** The other steps leave what is owed, answered and arrived alone. */
  lemma OtherStepsKeep(e: Engine, step: Step, id: nat)
    requires |e.workers| > 0 && !step.Dispatch? && !step.Answer?
    ensures var e' := Next(e, step);
            e'.verdicts == e.verdicts && e'.arrived == e.arrived && Owed(e', id) == Owed(e, id)
  {
    assert Index(Next(e, step), id) == Index(e, id);
    if step.Take? && step.w < |e.workers| && e.workers[step.w].inHand == [] && e.workers[step.w].queue != [] {
      TakeKeepsPending(e.workers[step.w]);
    }
  }

  lemma InOrderStep(e: Engine, step: Step, id: nat)
    requires Routed(e) && InOrder(e, id)
    ensures InOrder(Next(e, step), id)
  {
    match step
    case Dispatch(p) => DispatchInOrder(e, p, id);
    case Answer(i) =>
      if i < |e.workers| { AnswerKeepsBooks(e, i, id, false); }
    case _ => OtherStepsKeep(e, step, id);
  }

  /** Under every interleaving of dispatcher, workers and updates: the worker verdicts of a
      stream ID are a prefix of its dispatched packets in arrival order, each at most once;
      and all of them once its worker's queue has drained. */
  lemma {:induction false} VerdictsInArrivalOrder(count: nat, queueSize: nat, ruleset: nat, steps: seq<Step>, id: nat)
    requires count > 0
    ensures var e := Run(Start(count, queueSize, ruleset), steps);
      && Routed(e) && InOrder(e, id)
      && Of(id, false, e.verdicts) <= Of(id, false, e.arrived)
      && (Pending(e.workers[Index(e, id)]) == [] ==> Of(id, false, e.verdicts) == Of(id, false, e.arrived))
  {
    if steps != [] {
      var n := |steps| - 1;
      VerdictsInArrivalOrder(count, queueSize, ruleset, steps[..n], id);
      RoutedStep(Run(Start(count, queueSize, ruleset), steps[..n]), steps[n]);
      InOrderStep(Run(Start(count, queueSize, ruleset), steps[..n]), steps[n], id);
    }
  }

  /** Which worker: over every run, a worker holds only packets of version 4 or 6 whose stream
      ID leaves its own number when divided by the number of workers. */
  lemma HeldByRemainder(count: nat, queueSize: nat, ruleset: nat, steps: seq<Step>, i: nat, p: Packet)
    requires i < count
    requires var w := Run(Start(count, queueSize, ruleset), steps).workers[i]; p in w.queue || p in w.inHand
    ensures p.streamID % count == i && (p.version == 4 || p.version == 6)
  {
    VerdictsInArrivalOrder(count, queueSize, ruleset, steps, p.streamID);
    var w := Run(Start(count, queueSize, ruleset), steps).workers[i];
    assert p in Pending(w);
  }

  /** What becomes of the next packet: one of version 4 or 6 waits, if there is room, and any
      other is answered at once. */
  lemma DispatchSplits(e: Engine, p: Packet)
    requires |e.workers| > 0 && p.number == |e.arrived|
    ensures var e', i := Next(e, Dispatch(p)), p.streamID % |e.workers|;
            if p.version in {4, 6} && |e.workers[i].queue| >= e.queueSize then e' == e
            else && e'.arrived == e.arrived + [p]
                 && e'.verdicts == e.verdicts + (if p.version in {4, 6} then [] else [p])
                 && e'.workers[i].queue == e.workers[i].queue + (if p.version in {4, 6} then [p] else [])
  {
    var q := e.workers[p.streamID % |e.workers|].queue;
    assert q + [] == q && e.verdicts + [] == e.verdicts;
  }

  // ---- Packets that are neither IPv4 nor IPv6 are answered by the dispatcher itself ----

  /** All packets of a stream ID are answered in arrival order, with what is pending still
      to come. */
  ghost predicate AllInOrder(e: Engine, id: nat)
    requires |e.workers| > 0
  {
    Books(id, true, e.verdicts, Owed(e, id), e.arrived)
  }

  ghost predicate Numbered(e: Engine) {
    forall i, p :: 0 <= i < |e.workers| && p in Pending(e.workers[i]) ==> p.number < |e.arrived|
  }

  lemma {:induction false} PendingNumbered(count: nat, queueSize: nat, ruleset: nat, steps: seq<Step>)
    requires count > 0
    ensures Numbered(Run(Start(count, queueSize, ruleset), steps))
  {
    if steps != [] {
      var n := |steps| - 1;
      var e := Run(Start(count, queueSize, ruleset), steps[..n]);
      PendingNumbered(count, queueSize, ruleset, steps[..n]);
      var step := steps[n];
      if step.Take? && step.w < |e.workers| && e.workers[step.w].inHand == [] && e.workers[step.w].queue != [] {
        TakeKeepsPending(e.workers[step.w]);
      }
    }
  }

  lemma {:induction false} OfMember(id: nat, all: bool, ps: seq<Packet>, p: Packet)
    requires p in Of(id, all, ps)
    ensures p in ps
  {
    if p in Of(id, all, ps[..|ps| - 1]) {
      OfMember(id, all, ps[..|ps| - 1], p);
    }
  }

  /** A packet answered by the dispatcher keeps the arrival order of its stream ID exactly
      when nothing of that ID is still pending: otherwise it overtakes. */
  lemma BypassKeepsOrderIffIdle(e: Engine, p: Packet)
    requires |e.workers| > 0 && Numbered(e) && AllInOrder(e, p.streamID)
    requires Bypasses(p) && p.number == |e.arrived|
    ensures AllInOrder(Next(e, Dispatch(p)), p.streamID)
       <==> Of(p.streamID, true, Pending(e.workers[Index(e, p.streamID)])) == []
  {
    var id := p.streamID;
    var w := e.workers[Index(e, id)];
    var done, owed := Of(id, true, e.verdicts), Of(id, true, Pending(w));
    OfSnoc(id, true, e.arrived, p);
    OfSnoc(id, true, e.verdicts, p);
    Assoc(done, owed, [p]);
    Assoc(done, [p], owed);
    assert e.workers[Index(Next(e, Dispatch(p)), id)] == w;
    if owed != [] {
      OfMember(id, true, Pending(w), owed[0]);
      assert ([p] + owed)[0] != (owed + [p])[0];
      assert (done + ([p] + owed))[|done|] == p;
      assert (done + (owed + [p]))[|done|] == owed[0];
    } else {
      Assoc([p], owed, []);
    }
  }

  /** A packet that the dispatcher answers while packets of its stream ID are pending. */
  ghost predicate Overtakes(e: Engine, step: Step, id: nat)
    requires |e.workers| > 0
  {
    && step.Dispatch? && step.p.streamID == id && Bypasses(step.p) && step.p.number == |e.arrived|
    && Of(id, true, Owed(e, id)) != []
  }

  lemma DispatchAllInOrder(e: Engine, p: Packet, id: nat)
    requires Routed(e) && Numbered(e) && AllInOrder(e, id) && !Overtakes(e, Dispatch(p), id)
    ensures AllInOrder(Next(e, Dispatch(p)), id)
  {
    if Bypasses(p) && p.streamID == id && p.number == |e.arrived| {
      BypassKeepsOrderIffIdle(e, p);
    } else {
      DispatchMoves(e, p, id);
      BooksArrive(id, true, e.verdicts, Owed(e, id), e.arrived, p);
      assert Bypasses(p) && p.number != |e.arrived| ==> Next(e, Dispatch(p)) == e;
    }
  }

  lemma AllInOrderStep(e: Engine, step: Step, id: nat)
    requires Routed(e) && Numbered(e) && AllInOrder(e, id) && !Overtakes(e, step, id)
    ensures AllInOrder(Next(e, step), id)
  {
    match step
    case Dispatch(p) => DispatchAllInOrder(e, p, id);
    case Answer(i) =>
      if i < |e.workers| { AnswerKeepsBooks(e, i, id, true); }
    case _ => OtherStepsKeep(e, step, id);
  }

  function StateAt(count: nat, queueSize: nat, ruleset: nat, steps: seq<Step>, k: nat): (e: Engine)
    requires count > 0 && k <= |steps|
    ensures |e.workers| == count
  {
    Run(Start(count, queueSize, ruleset), steps[..k])
  }

  lemma StateAfter(count: nat, queueSize: nat, ruleset: nat, steps: seq<Step>, k: nat)
    requires count > 0 && k < |steps|
    ensures StateAt(count, queueSize, ruleset, steps, k + 1) == Next(StateAt(count, queueSize, ruleset, steps, k), steps[k])
    ensures Routed(StateAt(count, queueSize, ruleset, steps, k)) && Numbered(StateAt(count, queueSize, ruleset, steps, k))
  {
    assert steps[..k + 1][..k] == steps[..k];
    VerdictsInArrivalOrder(count, queueSize, ruleset, steps[..k], 0);
    PendingNumbered(count, queueSize, ruleset, steps[..k]);
  }

  lemma {:induction false} InOrderUpTo(count: nat, queueSize: nat, ruleset: nat, steps: seq<Step>, id: nat, k: nat)
    requires count > 0 && k <= |steps|
    requires forall j :: 0 <= j < k ==> !Overtakes(StateAt(count, queueSize, ruleset, steps, j), steps[j], id)
    ensures AllInOrder(StateAt(count, queueSize, ruleset, steps, k), id)
  {
    if k > 0 {
      InOrderUpTo(count, queueSize, ruleset, steps, id, k - 1);
      StateAfter(count, queueSize, ruleset, steps, k - 1);
      AllInOrderStep(StateAt(count, queueSize, ruleset, steps, k - 1), steps[k - 1], id);
    }
  }

  lemma OvertakingBreaksOrder(count: nat, queueSize: nat, ruleset: nat, steps: seq<Step>, id: nat, k: nat)
    requires count > 0 && k < |steps| && Overtakes(StateAt(count, queueSize, ruleset, steps, k), steps[k], id)
    requires AllInOrder(StateAt(count, queueSize, ruleset, steps, k), id)
    ensures !AllInOrder(StateAt(count, queueSize, ruleset, steps, k + 1), id)
  {
    StateAfter(count, queueSize, ruleset, steps, k);
    BypassKeepsOrderIffIdle(StateAt(count, queueSize, ruleset, steps, k), steps[k].p);
  }

  /** Over every run: all packets of a stream ID, the dispatcher's own included, are answered
      in arrival order throughout exactly when it never answers one while another of the
      same ID is pending. */
  lemma InOrderThroughoutIff(count: nat, queueSize: nat, ruleset: nat, steps: seq<Step>, id: nat)
    requires count > 0
    ensures (forall k :: 0 <= k <= |steps| ==> AllInOrder(StateAt(count, queueSize, ruleset, steps, k), id))
            <==> forall k :: 0 <= k < |steps| ==> !Overtakes(StateAt(count, queueSize, ruleset, steps, k), steps[k], id)
  {
    if forall k :: 0 <= k < |steps| ==> !Overtakes(StateAt(count, queueSize, ruleset, steps, k), steps[k], id) {
      forall k | 0 <= k <= |steps| ensures AllInOrder(StateAt(count, queueSize, ruleset, steps, k), id) {
        InOrderUpTo(count, queueSize, ruleset, steps, id, k);
      }
    } else {
      var k :| 0 <= k < |steps| && Overtakes(StateAt(count, queueSize, ruleset, steps, k), steps[k], id);
      if AllInOrder(StateAt(count, queueSize, ruleset, steps, k), id) {
        OvertakingBreaksOrder(count, queueSize, ruleset, steps, id, k);
      }
    }
  }

  // ---- Rulesets ----

  /** Every stream serial a worker knows of, with the ruleset it goes by. */
  ghost function Known(w: Worker): set<(nat, nat)> {
    (set m | m in w.matches)
    + (set k | k in w.tcp :: (w.tcp[k].serial, w.tcp[k].ruleset))
    + (set k | k in w.udp :: (w.udp[k].serial, w.udp[k].ruleset))
  }

  ghost predicate OneRuleset(w: Worker) {
    && (forall m :: m in Known(w) ==> m.0 < w.next)
    && (forall m, k :: m in Known(w) && k in Known(w) && m.0 == k.0 ==> m.1 == k.1)
  }

  /** Handling a packet uses a known stream, or makes a new one under the ruleset of the day. */
  lemma HandleKnows(w: Worker, p: Packet)
    ensures var w' := HandlePacket(w, p);
            || (w'.next == w.next && Known(w') <= Known(w))
            || (w'.next == w.next + 1 && Known(w') <= Known(w) + {(w.next, if p.transport.TCP? then w.tcpRuleset else w.udpRuleset)})
  {}

  lemma HandleOneRuleset(w: Worker, p: Packet)
    requires OneRuleset(w)
    ensures OneRuleset(HandlePacket(w, p))
  {
    HandleKnows(w, p);
  }

  lemma FewerKnown(w: Worker, w': Worker)
    requires OneRuleset(w) && w'.next == w.next && w'.matches == w.matches
    requires forall k :: k in w'.tcp ==> k in w.tcp && w'.tcp[k] == w.tcp[k]
    requires forall k :: k in w'.udp ==> k in w.udp && w'.udp[k] == w.udp[k]
    ensures OneRuleset(w')
  {
    assert Known(w') <= Known(w);
  }

  lemma OneRulesetStep(e: Engine, step: Step, i: nat)
    requires |e.workers| > 0 && i < |e.workers| && OneRuleset(e.workers[i])
    ensures OneRuleset(Next(e, step).workers[i])
  {
    var w := e.workers[i];
    if step.Take? && step.w == i && w.queue != [] && w.inHand == [] {
      var taken := w.(queue := w.queue[1..], inHand := [w.queue[0]]);
      FewerKnown(w, taken);
      HandleOneRuleset(taken, w.queue[0]);
    } else {
      FewerKnown(w, Next(e, step).workers[i]);
    }
  }

  /** No stream is ever matched against two rulesets, however far an update has got. */
  lemma {:induction false} NoStreamSeesTwoRulesets(count: nat, queueSize: nat, ruleset: nat, steps: seq<Step>, i: nat)
    requires i < count
    ensures var w := Run(Start(count, queueSize, ruleset), steps).workers[i];
      && OneRuleset(w)
      && forall a, b :: a in w.matches && b in w.matches && a.0 == b.0 ==> a.1 == b.1
  {
    if steps != [] {
      var n := |steps| - 1;
      NoStreamSeesTwoRulesets(count, queueSize, ruleset, steps[..n], i);
      OneRulesetStep(Run(Start(count, queueSize, ruleset), steps[..n]), steps[n], i);
    }
    var w := Run(Start(count, queueSize, ruleset), steps).workers[i];
    forall a, b | a in w.matches && b in w.matches && a.0 == b.0
      ensures a.1 == b.1
    {
      assert a in Known(w) && b in Known(w);
    }
  }

  /** Storing a ruleset worker by worker, TCP before UDP. */
  function UpdateSteps(n: nat, ruleset: nat): seq<Step> {
    if n == 0 then [] else UpdateSteps(n - 1, ruleset) + [SetTcpRuleset(n - 1, ruleset), SetUdpRuleset(n - 1, ruleset)]
  }

  lemma RunTwo(e: Engine, steps: seq<Step>, a: Step, b: Step)
    requires |e.workers| > 0
    ensures Run(e, steps + [a, b]) == Next(Next(Run(e, steps), a), b)
  {
    assert (steps + [a, b])[..|steps| + 1] == steps + [a];
    assert (steps + [a])[..|steps|] == steps;
  }

  /** A store of a ruleset in a worker's TCP or UDP factory. */
  datatype Store = TcpStore(ruleset: nat) | UdpStore(ruleset: nat)

  /** What one step stores in the factories of worker `i`. */
  function StoreOf(step: Step, i: nat): seq<Store> {
    if step.SetTcpRuleset? && step.w == i then [TcpStore(step.ruleset)]
    else if step.SetUdpRuleset? && step.w == i then [UdpStore(step.ruleset)]
    else []
  }

  /** The stores in worker `i` among all the steps of a run, in order. */
  function Stores(steps: seq<Step>, i: nat): seq<Store> {
    if steps == [] then [] else Stores(steps[..|steps| - 1], i) + StoreOf(steps[|steps| - 1], i)
  }

  function LastTcp(stores: seq<Store>, initial: nat): nat {
    if stores == [] then initial
    else if stores[|stores| - 1].TcpStore? then stores[|stores| - 1].ruleset
    else LastTcp(stores[..|stores| - 1], initial)
  }

  function LastUdp(stores: seq<Store>, initial: nat): nat {
    if stores == [] then initial
    else if stores[|stores| - 1].UdpStore? then stores[|stores| - 1].ruleset
    else LastUdp(stores[..|stores| - 1], initial)
  }

  lemma StoreStep(e: Engine, step: Step, i: nat)
    requires i < |e.workers|
    ensures var w, w' := e.workers[i], Next(e, step).workers[i];
            && w'.tcpRuleset == LastTcp(StoreOf(step, i), w.tcpRuleset)
            && w'.udpRuleset == LastUdp(StoreOf(step, i), w.udpRuleset)
  {}

  lemma LastOfMore(stores: seq<Store>, more: seq<Store>, initial: nat)
    requires |more| <= 1
    ensures LastTcp(stores + more, initial) == LastTcp(more, LastTcp(stores, initial))
    ensures LastUdp(stores + more, initial) == LastUdp(more, LastUdp(stores, initial))
  {
    if more == [] {
      assert stores + more == stores;
    } else {
      assert (stores + more)[..|stores|] == stores && more[..0] == [];
    }
  }

  /** Under every interleaving with everything else, a factory holds what was last stored in
      it; so a worker's two factories agree exactly when the last stores in them do. */
  lemma {:induction false} FactoriesHoldLastStores(count: nat, queueSize: nat, ruleset: nat, steps: seq<Step>, i: nat)
    requires i < count
    ensures var w := Run(Start(count, queueSize, ruleset), steps).workers[i];
            && w.tcpRuleset == LastTcp(Stores(steps, i), ruleset)
            && w.udpRuleset == LastUdp(Stores(steps, i), ruleset)
  {
    if steps != [] {
      var n := |steps| - 1;
      FactoriesHoldLastStores(count, queueSize, ruleset, steps[..n], i);
      StoreStep(Run(Start(count, queueSize, ruleset), steps[..n]), steps[n], i);
      LastOfMore(Stores(steps[..n], i), StoreOf(steps[n], i), ruleset);
    }
  }

  /** A packet taken up is matched once: on the stream its worker knows for it, under that
      stream's own ruleset; or else on a new one, under what was last stored in the factory of
      its kind. */
  lemma MatchedUnder(count: nat, queueSize: nat, ruleset: nat, steps: seq<Step>, i: nat)
    requires i < count
    requires var w := Run(Start(count, queueSize, ruleset), steps).workers[i];
      w.inHand == [] && w.queue != [] && w.queue[0].transport != Other
    ensures var w, w' := Run(Start(count, queueSize, ruleset), steps).workers[i], Run(Start(count, queueSize, ruleset), steps + [Take(i)]).workers[i];
            var p := w.queue[0];
            w'.matches == w.matches + [
              if p.transport == TCP
              then if p.flow in w.tcp then (w.tcp[p.flow].serial, w.tcp[p.flow].ruleset)
                   else (w.next, LastTcp(Stores(steps, i), ruleset))
              else if p.streamID in w.udp && w.udp[p.streamID].flow == p.flow then (w.udp[p.streamID].serial, w.udp[p.streamID].ruleset)
                   else (w.next, LastUdp(Stores(steps, i), ruleset))]
  {
    assert (steps + [Take(i)])[..|steps|] == steps;
    FactoriesHoldLastStores(count, queueSize, ruleset, steps, i);
  }

  /** Updates that do not overlap at a worker: each stores TCP, then UDP, with nothing stored
      between. */
  function Updates(rulesets: seq<nat>): seq<Store> {
    if rulesets == [] then []
    else
      var last := rulesets[|rulesets| - 1];
      Updates(rulesets[..|rulesets| - 1]) + [TcpStore(last), UdpStore(last)]
  }

  /** After any number of such updates, with any packets handled in between, both factories
      hold the ruleset of the last one. */
  lemma SeparateUpdatesAgree(count: nat, queueSize: nat, ruleset: nat, steps: seq<Step>, i: nat, rulesets: seq<nat>)
    requires i < count && Stores(steps, i) == Updates(rulesets)
    ensures var w := Run(Start(count, queueSize, ruleset), steps).workers[i];
            w.tcpRuleset == w.udpRuleset == if rulesets == [] then ruleset else rulesets[|rulesets| - 1]
  {
    FactoriesHoldLastStores(count, queueSize, ruleset, steps, i);
    if rulesets != [] {
      var stores, last := Stores(steps, i), rulesets[|rulesets| - 1];
      var before := Updates(rulesets[..|rulesets| - 1]);
      assert stores[..|stores| - 1] == before + [TcpStore(last)];
    }
  }

  lemma StoresSnoc(steps: seq<Step>, step: Step, i: nat)
    ensures Stores(steps + [step], i) == Stores(steps, i) + StoreOf(step, i)
  {
    assert (steps + [step])[..|steps|] == steps;
  }

  /** Two overlapping updates, at any time and whatever was stored before: when the one that
      stores TCP last stores UDP first, the factories end on different rulesets. */
  lemma OverlappingUpdatesDisagree(count: nat, queueSize: nat, ruleset: nat, before: seq<Step>, i: nat, a: nat, b: nat)
    requires i < count
    ensures var steps := before + [SetTcpRuleset(i, a)] + [SetTcpRuleset(i, b)] + [SetUdpRuleset(i, b)] + [SetUdpRuleset(i, a)];
            var w := Run(Start(count, queueSize, ruleset), steps).workers[i];
            w.tcpRuleset == b && w.udpRuleset == a
  {
    var s1 := before + [SetTcpRuleset(i, a)];
    var s2 := s1 + [SetTcpRuleset(i, b)];
    var s3 := s2 + [SetUdpRuleset(i, b)];
    var s4 := s3 + [SetUdpRuleset(i, a)];
    StoresSnoc(s1, SetTcpRuleset(i, b), i);
    StoresSnoc(s2, SetUdpRuleset(i, b), i);
    StoresSnoc(s3, SetUdpRuleset(i, a), i);
    LastOfMore(Stores(s1, i), [TcpStore(b)], ruleset);
    LastOfMore(Stores(s2, i), [UdpStore(b)], ruleset);
    LastOfMore(Stores(s3, i), [UdpStore(a)], ruleset);
    FactoriesHoldLastStores(count, queueSize, ruleset, s4, i);
  }

  /** The engine object; each method is one step of some thread, or a run of steps. */
  class InterceptEngine {
    const queueSize: nat
    var workers: seq<Worker>
    var arrived: seq<Packet>
    var verdicts: seq<Packet>

    function Value(): Engine
      reads this
    {
      Engine(workers, queueSize, arrived, verdicts)
    }

    constructor (count: nat, queueSize: nat, ruleset: nat)
      ensures Value() == Start(count, queueSize, ruleset)
    {
      this.queueSize := queueSize;
      workers := seq(count, _ => Worker([], [], ruleset, ruleset, map[], map[], 0, []));
      arrived, verdicts := [], [];
    }

    /** The dispatcher waits while the queue is full. */
    method DispatchPacket(p: Packet)
      requires |workers| > 0 && p.number == |arrived|
      requires Bypasses(p) || |workers[p.streamID % |workers|].queue| < queueSize
      modifies this
      ensures Value() == Next(old(Value()), Dispatch(p))
      ensures arrived == old(arrived) + [p]
    {
      arrived := arrived + [p];
      if p.version != 4 && p.version != 6 {
        verdicts := verdicts + [p];
        return;
      }
      var index := p.streamID % |workers|;
      var w := workers[index];
      workers := workers[index := w.(queue := w.queue + [p])];
    }

    /** One round of a worker's loop: take a packet, handle it, set its verdict. */
    method Round(i: nat)
      requires i < |workers| && workers[i].queue != [] && workers[i].inHand == []
      modifies this
      ensures Value() == Next(Next(old(Value()), Take(i)), Answer(i))
      ensures verdicts == old(verdicts) + [old(workers)[i].queue[0]]
    {
      var p := workers[i].queue[0];
      workers := workers[i := HandlePacket(workers[i].(queue := workers[i].queue[1..], inHand := [p]), p)];
      HandleKeepsQueue(old(workers)[i].(queue := old(workers)[i].queue[1..], inHand := [p]), p);
      verdicts := verdicts + [p];
      workers := workers[i := workers[i].(inHand := [])];
    }

    /** The update loop, undisturbed: afterwards every factory makes its streams with `r`. */
    method UpdateRuleset(r: nat)
      requires |workers| > 0
      modifies this
      ensures Value() == Run(old(Value()), UpdateSteps(|old(workers)|, r))
      ensures forall i :: 0 <= i < |workers| ==> workers[i].tcpRuleset == r && workers[i].udpRuleset == r
    {
      for i := 0 to |workers|
        invariant |workers| == |old(workers)|
        invariant Value() == Run(old(Value()), UpdateSteps(i, r))
        invariant forall j :: 0 <= j < i ==> workers[j].tcpRuleset == r && workers[j].udpRuleset == r
      {
        RunTwo(old(Value()), UpdateSteps(i, r), SetTcpRuleset(i, r), SetUdpRuleset(i, r));
        workers := workers[i := workers[i].(tcpRuleset := r)];
        workers := workers[i := workers[i].(udpRuleset := r)];
      }
    }
  }
}
